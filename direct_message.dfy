/** The sink that sends journal events as a direct message to one user. The
    text is labelled with the guild's name, and the embed and file attributes
    are forwarded, each file through a copy so that no other sink's stream is
    consumed. */
module DirectMessage {
  import opened Journal

  /** The one message a delivery sends: its recipient and the keyword
      arguments of the send call. */
  datatype DirectMessage = DirectMessage(recipient: UserId, kwargs: map<string, AttrValue>)

  /** The keys the sink forwards besides `content`. */
  const FORWARDED: set<string> := {"embed", "file", "files"}

  /** The content after labelling: `[name] content` when there is a guild. */
  function Labelled(guild: Option<Guild>, content: string): (s: string)
    ensures guild.None? ==> s == content
    ensures guild.Some? ==> |s| == |guild.value.name| + 3 + |content| && s[|s| - |content|..] == content
  {
    if guild.Some? then "[" + guild.value.name + "] " + content else content
  }

  /** The elements Python's iteration yields for a value, or None when the
      value is not iterable: a list its items, a string its one-character
      strings, None and other objects nothing. */
  function Elements(v: AttrValue): (r: Option<seq<AttrValue>>)
    ensures v.List? ==> r == Some(v.items)
    ensures v.Text? ==> r.Some? && |r.value| == |v.text| && forall i | 0 <= i < |v.text| :: r.value[i] == Text([v.text[i]])
    ensures v.Nil? || v.Object? ==> r.None?
  {
    match v
    case List(items) => Some(items)
    case Text(s) => Some(seq(|s|, i requires 0 <= i < |s| => Text([s[i]])))
    case _ => None
  }

  /** `list(map(copy, items))` */
  function CopyAll(copy: AttrValue -> AttrValue, items: seq<AttrValue>): (r: seq<AttrValue>)
    ensures |r| == |items| && forall i | 0 <= i < |items| :: r[i] == copy(items[i])
  {
    seq(|items|, i requires 0 <= i < |items| => copy(items[i]))
  }

  datatype DirectMessageListener = DirectMessageListener(user: UserId) {

    /** Builds the keyword arguments and the message for one event. `copy`
        stands for the attachment-copying utility, whose code is not part
        of this model. */
    method Handle(path: string, guild: Option<Guild>, content: string, attributes: Attributes,
                  copy: AttrValue -> AttrValue)
      returns (r: Result<DirectMessage>)
      ensures r.Err? <==> "files" in attributes && Elements(attributes["files"]).None?
      ensures r.Err? ==> r.error == TypeError
      ensures r.Ok? ==> r.value.recipient == user
      ensures r.Ok? ==> r.value.kwargs.Keys == {"content"} + (attributes.Keys * FORWARDED)
      ensures r.Ok? ==> r.value.kwargs["content"] == Text(Labelled(guild, content))
      ensures r.Ok? && "embed" in attributes ==> r.value.kwargs["embed"] == attributes["embed"]
      ensures r.Ok? && "file" in attributes ==> r.value.kwargs["file"] == copy(attributes["file"])
      ensures r.Ok? && "files" in attributes ==>
                var items := Elements(attributes["files"]).value;
                r.value.kwargs["files"].List?
                && |r.value.kwargs["files"].items| == |items|
                && forall i | 0 <= i < |items| :: r.value.kwargs["files"].items[i] == copy(items[i])
    {
      var text := content;
      if guild.Some? {
        text := "[" + guild.value.name + "] " + text;
      }

      var kwargs := map["content" := Text(text)];
      if "embed" in attributes {
        kwargs := kwargs["embed" := attributes["embed"]];
      }
      if "file" in attributes {
        kwargs := kwargs["file" := copy(attributes["file"])];
      }
      if "files" in attributes {
        var items := Elements(attributes["files"]);
        if items.None? {
          return Err(TypeError);
        }
        kwargs := kwargs["files" := List(CopyAll(copy, items.value))];
      }
      r := Ok(DirectMessage(user, kwargs));
    }
  }

  /** The label can be taken off again: the content is what follows it. */
  lemma {:induction false} LabelIsRemovable(g: Guild, content: string)
    ensures var sent := Labelled(Some(g), content);
      |sent| == |g.name| + 3 + |content|
      && sent[..|g.name| + 3] == "[" + g.name + "] "
      && sent[|g.name| + 3..] == content
  {
    var sent := Labelled(Some(g), content);
    assert sent == ("[" + g.name + "] ") + content;
  }
}
