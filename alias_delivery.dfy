/** What the channel sink does with the events the alias tracker publishes:
    a member update arrives with the `person` glyph, while the two alt-account
    events name icons the registry does not have, so the channel sink raises
    on them and sends nothing. */
module AliasDelivery {
  import opened Journal
  import Icons
  import Alias
  import ChannelOutput

  /** A successful member update reaches an accepting channel as its summary
      behind BUST IN SILHOUETTE and a space. */
  lemma MemberUpdateRendersPerson(listener: ChannelOutput.ChannelOutputListener, path: string,
                                  before: Alias.Member, after: Alias.Member, discrim: Alias.Member -> string)
    requires Alias.UpdateOutcome(before, after, discrim).error.None?
    requires Alias.Diff(before, after).Any()
    ensures var effects := Alias.UpdateOutcome(before, after, discrim).effects;
      var event := effects[|effects| - 1];
      event.Publish?
      && listener.Handle(path, event.scope, event.content, event.attributes)
         == Ok(ChannelOutput.ChannelMessage(listener.channel, "\U{1F464} " + event.content))
  {
    Alias.UpdatePublishesOnce(before, after, discrim);
    Icons.PersonIconResolves();
    var effects := Alias.UpdateOutcome(before, after, discrim).effects;
    var event := effects[|effects| - 1];
    assert Get(event.attributes, "icon") == Text("person");
    assert ChannelOutput.Render("person", event.content) == "\U{1F464} " + event.content;
  }

  /** `alts add` publishes the icon `item_add`, which is not in the registry:
      the channel sink raises KeyError for every such event. */
  lemma AltAddFailsInChannelSink(listener: ChannelOutput.ChannelOutputListener, path: string,
                                 guild: Guild, firstMention: string, secondMention: string)
    ensures var event := Alias.AltAddEvent(guild, firstMention, secondMention);
      event.suffix == "alt/add"
      && listener.Handle(path, event.scope, event.content, event.attributes) == Err(KeyError(Text("item_add")))
  {
    Icons.ItemIconsMissing();
  }

  /** `alts delchain` publishes the icon `item_clear`, which is not in the
      registry either. */
  lemma AltClearFailsInChannelSink(listener: ChannelOutput.ChannelOutputListener, path: string,
                                   guild: Guild, mention: string)
    ensures var event := Alias.AltClearEvent(guild, mention);
      event.suffix == "alt/clear"
      && listener.Handle(path, event.scope, event.content, event.attributes) == Err(KeyError(Text("item_clear")))
  {
    Icons.ItemIconsMissing();
  }
}
