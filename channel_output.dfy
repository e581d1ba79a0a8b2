/** The sink that writes journal events to one guild text channel. It accepts
    an event only when its channel belongs to the event's guild, and renders
    the text with the glyph of the event's `icon` attribute in front. */
module ChannelOutput {
  import opened Journal
  import Icons

  /** The one message a successful delivery sends. */
  datatype ChannelMessage = ChannelMessage(channel: ChannelId, content: string)

  /** The text sent for an event whose icon is the known name `icon`. */
  function Render(icon: string, content: string): (s: string)
    requires icon in Icons.ICONS
    ensures |s| == |content| + 2
    ensures s[..1] == Icons.ICONS[icon] && s[1] == ' ' && s[2..] == content
  {
    Icons.IconGlyphsAreSingleCharacters();
    Icons.ICONS[icon] + " " + content
  }

  datatype ChannelOutputListener = ChannelOutputListener(channel: ChannelId) {

    /** Accepts the event exactly when the configured channel is one of the
        guild's channels; a missing guild raises on `guild.channels`. */
    function Filter(path: string, guild: Option<Guild>, content: string, attributes: Attributes): (r: Result<bool>)
      ensures guild.None? <==> r == Err(AttributeError)
      ensures guild.Some? ==> r == Ok(channel in guild.value.channels)
    {
      match guild
      case None => Err(AttributeError)
      case Some(g) => Ok(channel in g.channels)
    }

    /** The message sent for an event, or the exception raised before sending. */
    function Handle(path: string, guild: Option<Guild>, content: string, attributes: Attributes): (r: Result<ChannelMessage>)
      ensures Get(attributes, "icon") == Nil ==> r == Ok(ChannelMessage(channel, content))
      ensures Get(attributes, "icon").Text? && Get(attributes, "icon").text in Icons.ICONS ==>
                r == Ok(ChannelMessage(channel, Render(Get(attributes, "icon").text, content)))
      ensures r.Err? <==> Get(attributes, "icon") != Nil && !(Get(attributes, "icon").Text? && Get(attributes, "icon").text in Icons.ICONS)
      ensures Get(attributes, "icon").List? ==> r == Err(TypeError)
      ensures r.Err? && !Get(attributes, "icon").List? ==> r == Err(KeyError(Get(attributes, "icon")))
      ensures r.Ok? ==> r.value.channel == channel
    {
      var icon := Get(attributes, "icon");
      if icon == Nil then Ok(ChannelMessage(channel, content))
      else if icon.List? then Err(TypeError)
      else if icon.Text? && icon.text in Icons.ICONS then Ok(ChannelMessage(channel, Render(icon.text, content)))
      else Err(KeyError(icon))
    }
  }

  /** A listener never accepts events of two guilds that share no channel. */
  lemma FilterSeparatesGuilds(listener: ChannelOutputListener, path: string, g1: Guild, g2: Guild, content: string, attributes: Attributes)
    requires g1.channels !! g2.channels
    ensures !(listener.Filter(path, Some(g1), content, attributes) == Ok(true)
              && listener.Filter(path, Some(g2), content, attributes) == Ok(true))
  {
  }

  /** A rendered text gives back its icon and its content: the glyph is one
      character, followed by one space, and no two icons share a glyph. */
  lemma {:induction false} RenderIsInjective(icon1: string, content1: string, icon2: string, content2: string)
    requires icon1 in Icons.ICONS && icon2 in Icons.ICONS
    requires Render(icon1, content1) == Render(icon2, content2)
    ensures icon1 == icon2 && content1 == content2
  {
    Icons.IconGlyphsAreSingleCharacters();
    Icons.IconsInjective();
    var r1, r2 := Render(icon1, content1), Render(icon2, content2);
    assert r1[0] == Icons.ICONS[icon1][0] && r2[0] == Icons.ICONS[icon2][0];
    assert Icons.ICONS[icon1] == [r1[0]] && Icons.ICONS[icon2] == [r2[0]];
    assert r1[2..] == content1 && r2[2..] == content2;
  }

  /** The content always arrives verbatim, as the tail of the sent text. */
  lemma {:induction false} ContentIsSentVerbatim(listener: ChannelOutputListener, path: string, guild: Option<Guild>, content: string, attributes: Attributes)
    requires listener.Handle(path, guild, content, attributes).Ok?
    ensures var sent := listener.Handle(path, guild, content, attributes).value.content;
      |content| <= |sent| <= |content| + 2 && sent[|sent| - |content|..] == content
  {
    var icon := Get(attributes, "icon");
    if icon != Nil {
      Icons.IconGlyphsAreSingleCharacters();
      var sent := Render(icon.text, content);
      assert sent[2..] == content;
    }
  }
}
