/** Alias tracking: what `member_update` records and publishes when a member
    changes avatar, username or nickname; the avatar-extension regex; and the
    alias listing's removal of the member from their own alt chain and its
    collection of past avatars as attachments. */
module Alias {
  import opened Journal

  /** A member as the tracker reads it: `avatar` is the avatar hash (None for
      the default avatar), `avatarUrl` the address the avatar is served from. */
  datatype Member = Member(
    id: UserId,
    name: string,
    nick: Option<string>,
    avatar: Option<string>,
    avatarUrl: string,
    guild: Guild)

  // ---------------------------------------------------------------------
  // EXTENSION_REGEX = re.compile(r'\.([a-z]+)\?.+$'), applied with match()
  // ---------------------------------------------------------------------

  predicate IsLower(c: char) {
    'a' <= c <= 'z'
  }

  ghost predicate AllLower(s: string) {
    forall i | 0 <= i < |s| :: IsLower(s[i])
  }

  ghost predicate NoNewline(s: string) {
    forall i | 0 <= i < |s| :: s[i] != '\n'
  }

  /** `.+$` matches all of `t`: one or more characters other than a newline,
      then the end of the string or a newline that is its last character. */
  ghost predicate DotsToEnd(t: string) {
    || (|t| >= 1 && NoNewline(t))
    || (|t| >= 2 && t[|t| - 1] == '\n' && NoNewline(t[..|t| - 1]))
  }

  /** The regex matches at the start of `url` with group 1 equal to `ext`:
      a dot, the letters of `ext`, a question mark, then `.+$`. */
  ghost predicate ExtensionRegexMatches(url: string, ext: string) {
    && |ext| >= 1
    && |url| >= |ext| + 2
    && url[0] == '.'
    && url[1..|ext| + 1] == ext
    && AllLower(ext)
    && url[|ext| + 1] == '?'
    && DotsToEnd(url[|ext| + 2..])
  }

  /** The end of the run of lower-case letters that starts at `i`. */
  function LowerRunEnd(s: string, i: nat): (j: nat)
    requires i <= |s|
    ensures i <= j <= |s|
    ensures forall k | i <= k < j :: IsLower(s[k])
    ensures j == |s| || !IsLower(s[j])
    decreases |s| - i
  {
    if i < |s| && IsLower(s[i]) then LowerRunEnd(s, i + 1) else i
  }

  /** The end of the run of non-newline characters that starts at `i`. */
  function LineEnd(s: string, i: nat): (j: nat)
    requires i <= |s|
    ensures i <= j <= |s|
    ensures forall k | i <= k < j :: s[k] != '\n'
    ensures j == |s| || s[j] == '\n'
    decreases |s| - i
  {
    if i < |s| && s[i] != '\n' then LineEnd(s, i + 1) else i
  }

  /** `EXTENSION_REGEX.match(url)`, giving group 1 when it matches. The
      letters run greedily up to the question mark, and `.+` runs greedily
      to the first newline; backtracking cannot produce any other match. */
  function MatchExtension(url: string): (r: Option<string>)
    ensures r.Some? ==> |r.value| >= 1 && AllLower(r.value) && |url| >= |r.value| + 3
    ensures r.Some? ==> url[..|r.value| + 2] == "." + r.value + "?"
  {
    if |url| == 0 || url[0] != '.' then None
    else
      var j := LowerRunEnd(url, 1);
      if j == 1 || j == |url| || url[j] != '?' then None
      else
        var e := LineEnd(url, j + 1);
        if e > j + 1 && (e == |url| || (e == |url| - 1 && url[e] == '\n')) then Some(url[1..j])
        else None
  }

  /** A run that stops at a given non-letter is exactly the letters before it. */
  lemma LowerRunEndAt(s: string, i: nat, j: nat)
    requires i <= j < |s|
    requires forall k | i <= k < j :: IsLower(s[k])
    requires !IsLower(s[j])
    ensures LowerRunEnd(s, i) == j
  {
  }

  lemma LineEndAt(s: string, i: nat, j: nat)
    requires i <= j <= |s|
    requires forall k | i <= k < j :: s[k] != '\n'
    requires j == |s| || s[j] == '\n'
    ensures LineEnd(s, i) == j
  {
  }

  /** The extraction succeeds with `ext` exactly when the regex matches with
      group 1 equal to `ext`. */
  lemma {:induction false} MatchExtensionIsRegexMatch(url: string, ext: string)
    ensures MatchExtension(url) == Some(ext) <==> ExtensionRegexMatches(url, ext)
  {
    if MatchExtension(url) == Some(ext) {
      var j := LowerRunEnd(url, 1);
      var e := LineEnd(url, j + 1);
      assert url[1..j] == ext;
      assert AllLower(ext) by {
        forall k | 0 <= k < |ext| ensures IsLower(ext[k]) {
          assert ext[k] == url[1 + k];
        }
      }
      var tail := url[j + 1..];
      if e == |url| {
        assert NoNewline(tail) by {
          forall k | 0 <= k < |tail| ensures tail[k] != '\n' {
            assert tail[k] == url[j + 1 + k];
          }
        }
      } else {
        assert tail[|tail| - 1] == url[e];
        var line := tail[..|tail| - 1];
        assert NoNewline(line) by {
          forall k | 0 <= k < |line| ensures line[k] != '\n' {
            assert line[k] == url[j + 1 + k];
          }
        }
      }
    }
    if ExtensionRegexMatches(url, ext) {
      var n := |ext| + 1;
      forall k | 1 <= k < n ensures IsLower(url[k]) {
        assert url[k] == ext[k - 1];
      }
      LowerRunEndAt(url, 1, n);
      var tail := url[n + 1..];
      if |tail| >= 1 && NoNewline(tail) {
        forall k | n + 1 <= k < |url| ensures url[k] != '\n' {
          assert url[k] == tail[k - n - 1];
        }
        LineEndAt(url, n + 1, |url|);
      } else {
        var line := tail[..|tail| - 1];
        forall k | n + 1 <= k < |url| - 1 ensures url[k] != '\n' {
          assert url[k] == line[k - n - 1];
        }
        LineEndAt(url, n + 1, |url| - 1);
      }
    }
  }

  /** When the extraction fails, no extension makes the regex match, and
      when it succeeds the group is the only one that does. */
  lemma MatchExtensionIsUnique(url: string)
    ensures MatchExtension(url).None? <==> forall ext :: !ExtensionRegexMatches(url, ext)
    ensures MatchExtension(url).Some? ==>
              forall ext :: ExtensionRegexMatches(url, ext) <==> ext == MatchExtension(url).value
  {
    forall ext ensures MatchExtension(url) == Some(ext) <==> ExtensionRegexMatches(url, ext) {
      MatchExtensionIsRegexMatch(url, ext);
    }
  }

  // ---------------------------------------------------------------------
  // MemberChanges
  // ---------------------------------------------------------------------

  /** The fields `member_update` fills in, one per kind of change; None
      means "did not change". */
  class MemberChanges {
    var avatarUrl: Option<string>
    var username: Option<string>
    var nickname: Option<string>

    constructor()
      ensures avatarUrl == None && username == None && nickname == None
    {
      avatarUrl := None;
      username := None;
      nickname := None;
    }

    /** The fields in `__slots__` order. */
    function Slots(): seq<Option<string>>
      reads this
    {
      [avatarUrl, username, nickname]
    }

    /** `__bool__`: scans the slots and is true at the first one that is set. */
    method IsTruthy() returns (b: bool)
      ensures b <==> avatarUrl.Some? || username.Some? || nickname.Some?
    {
      var slots := Slots();
      for i := 0 to |slots|
        invariant forall k | 0 <= k < i :: slots[k].None?
      {
        if slots[i].Some? {
          return true;
        }
      }
      assert slots[0].None? && slots[1].None? && slots[2].None?;
      return false;
    }
  }

  /** The value of a `MemberChanges` once `member_update` has compared the
      two snapshots of a member. */
  datatype Changes = Changes(avatarUrl: Option<string>, username: Option<string>, nickname: Option<string>) {
    predicate Any() {
      avatarUrl.Some? || username.Some? || nickname.Some?
    }
  }

  /** The three comparisons of `member_update`. A nickname is recorded only
      when the new one is not None, so removing a nickname records nothing. */
  function Diff(before: Member, after: Member): (c: Changes)
    ensures c.Any() <==>
              before.avatar != after.avatar || before.name != after.name
              || (before.nick != after.nick && after.nick.Some?)
    ensures c.nickname.Some? ==> c.nickname == after.nick
  {
    Changes(
      if before.avatar != after.avatar then Some(after.avatarUrl) else None,
      if before.name != after.name then Some(after.name) else None,
      if before.nick != after.nick && after.nick.Some? then after.nick else None)
  }

  // ---------------------------------------------------------------------
  // member_update
  // ---------------------------------------------------------------------

  /** What `member_update` does, in order: downloads, writes to the alias
      store, and the event it publishes on the `/alias` broadcaster. */
  datatype Effect =
    | Download(url: string)
    | StoreAvatar(url: string, ext: string)
    | StoreUsername(name: string)
    | StoreNickname(nick: string)
    | Publish(suffix: string, scope: Option<Guild>, content: string, attributes: Attributes)

  /** The effects performed, and the exception that ended the call, if any. */
  datatype Outcome = Outcome(effects: seq<Effect>, error: Option<Error>)

  /** `StringBuilder(sep=sep)` after writing `parts`, turned into a string. */
  function Join(sep: string, parts: seq<string>): (s: string)
    ensures |parts| == 0 ==> s == ""
    ensures |parts| >= 1 ==> |s| == TotalLength(parts) + (|parts| - 1) * |sep|
    ensures |parts| >= 1 ==> s[..|parts[0]|] == parts[0]
    ensures |parts| >= 1 ==>
              |parts[|parts| - 1]| <= |s| && s[|s| - |parts[|parts| - 1]|..] == parts[|parts| - 1]
    decreases |parts|
  {
    if |parts| == 0 then ""
    else if |parts| == 1 then parts[0]
    else parts[0] + sep + Join(sep, parts[1..])
  }

  /** The summed lengths of `parts`. */
  function TotalLength(parts: seq<string>): nat {
    if parts == [] then 0 else |parts[0]| + TotalLength(parts[1..])
  }

  /** The line of the summary that describes a store write. */
  function Describe(e: Effect): string {
    match e
    case StoreAvatar(url, _) => "avatar: " + url
    case StoreUsername(name) => "name: " + name
    case StoreNickname(nick) => "nick: " + nick
    case _ => ""
  }

  /** The store writes for a set of changes, in avatar, name, nick order;
      `ext` is the extension of the new avatar. */
  function Stores(c: Changes, ext: string): seq<Effect> {
    (if c.avatarUrl.Some? then [StoreAvatar(c.avatarUrl.value, ext)] else [])
    + (if c.username.Some? then [StoreUsername(c.username.value)] else [])
    + (if c.nickname.Some? then [StoreNickname(c.nickname.value)] else [])
  }

  /** The parts of the summary, one per change, in avatar, name, nick order. */
  function SummaryParts(c: Changes): seq<string> {
    (if c.avatarUrl.Some? then ["avatar: " + c.avatarUrl.value] else [])
    + (if c.username.Some? then ["name: " + c.username.value] else [])
    + (if c.nickname.Some? then ["nick: " + c.nickname.value] else [])
  }

  /** The extension stored with a new avatar: group 1 of the regex match. */
  function AvatarExt(c: Changes): string {
    if c.avatarUrl.Some? && MatchExtension(c.avatarUrl.value).Some? then MatchExtension(c.avatarUrl.value).value
    else ""
  }

  function UpdateContent(discrim: string, c: Changes): string {
    "Member " + discrim + " was updated: " + Join(", ", SummaryParts(c))
  }

  /** The keyword arguments of the `member/update` event. */
  const UPDATE_ATTRIBUTES: Attributes := map[
    "icon" := Text("person"),
    "before" := Object("Member"),
    "after" := Object("Member"),
    "changes" := Object("MemberChanges")]

  /** The outcome of `member_update`, as a function of the two snapshots.
      `discrim` stands for the user-formatting helper, whose code is not
      part of this model. */
  function UpdateOutcome(before: Member, after: Member, discrim: Member -> string): (o: Outcome)
    ensures o.error.Some? ==> o.error == Some(ValueError) && o.effects == [Download(after.avatarUrl)]
  {
    var c := Diff(before, after);
    if !c.Any() then Outcome([], None)
    else if c.avatarUrl.Some? && MatchExtension(c.avatarUrl.value).None? then
      Outcome([Download(c.avatarUrl.value)], Some(ValueError))
    else
      var downloads := if c.avatarUrl.Some? then [Download(c.avatarUrl.value)] else [];
      Outcome(
        downloads + Stores(c, AvatarExt(c))
        + [Publish("member/update", Some(before.guild), UpdateContent(discrim(before), c), UPDATE_ATTRIBUTES)],
        None)
  }

  /** `member_update`: fills in a `MemberChanges` field by field, stops when
      nothing changed, then downloads and checks the avatar, writes the
      changes to the store while building the summary, and publishes it. */
  method MemberUpdate(before: Member, after: Member, discrim: Member -> string) returns (outcome: Outcome)
    ensures outcome == UpdateOutcome(before, after, discrim)
  {
    var changes := new MemberChanges();
    if before.avatar != after.avatar {
      changes.avatarUrl := Some(after.avatarUrl);
    }
    if before.name != after.name {
      changes.username := Some(after.name);
    }
    if before.nick != after.nick && after.nick.Some? {
      changes.nickname := after.nick;
    }
    var c := Changes(changes.avatarUrl, changes.username, changes.nickname);
    assert c == Diff(before, after);

    var changed := changes.IsTruthy();
    if !changed {
      return Outcome([], None);
    }

    var effects: seq<Effect> := [];
    var ext := "";
    if changes.avatarUrl.Some? {
      effects := effects + [Download(changes.avatarUrl.value)];
      var m := MatchExtension(changes.avatarUrl.value);
      if m.None? {
        return Outcome(effects, Some(ValueError));
      }
      ext := m.value;
    }

    var parts: seq<string> := [];
    if changes.avatarUrl.Some? {
      effects := effects + [StoreAvatar(changes.avatarUrl.value, ext)];
      parts := parts + ["avatar: " + changes.avatarUrl.value];
    }
    if changes.username.Some? {
      effects := effects + [StoreUsername(changes.username.value)];
      parts := parts + ["name: " + changes.username.value];
    }
    if changes.nickname.Some? {
      effects := effects + [StoreNickname(changes.nickname.value)];
      parts := parts + ["nick: " + changes.nickname.value];
    }

    assert parts == SummaryParts(c);
    assert effects == (if c.avatarUrl.Some? then [Download(c.avatarUrl.value)] else []) + Stores(c, ext);
    var content := "Member " + discrim(before) + " was updated: " + Join(", ", parts);
    effects := effects + [Publish("member/update", Some(before.guild), content, UPDATE_ATTRIBUTES)];
    outcome := Outcome(effects, None);
  }

  /** Nothing happens (no download, no store write, no event) exactly when
      none of the three comparisons found a change. */
  lemma NoChangeMeansNoEffect(before: Member, after: Member, discrim: Member -> string)
    ensures UpdateOutcome(before, after, discrim).effects == [] <==> !Diff(before, after).Any()
    ensures !Diff(before, after).Any() ==> UpdateOutcome(before, after, discrim).error.None?
  {
  }

  /** A store write for a field is in the list exactly when the field
      changed, and it writes the new value. */
  lemma StoreWritesFollowDiff(before: Member, after: Member, ext: string)
    ensures var stores := Stores(Diff(before, after), ext);
      forall url, x :: StoreAvatar(url, x) in stores <==>
        before.avatar != after.avatar && url == after.avatarUrl && x == ext
    ensures var stores := Stores(Diff(before, after), ext);
      forall name :: StoreUsername(name) in stores <==> before.name != after.name && name == after.name
    ensures var stores := Stores(Diff(before, after), ext);
      forall nick :: StoreNickname(nick) in stores <==>
        before.nick != after.nick && after.nick == Some(nick)
  {
  }

  predicate IsStore(e: Effect) {
    e.StoreAvatar? || e.StoreUsername? || e.StoreNickname?
  }

  /** The store writes `member_update` performs are those of `Stores`, with
      the extension the regex extracted from the new avatar's address. */
  lemma {:induction false} StoresInOutcome(before: Member, after: Member, discrim: Member -> string)
    requires UpdateOutcome(before, after, discrim).error.None?
    ensures var c := Diff(before, after);
      forall e | IsStore(e) :: e in UpdateOutcome(before, after, discrim).effects <==> e in Stores(c, AvatarExt(c))
    ensures var c := Diff(before, after);
      c.avatarUrl.Some? ==> MatchExtension(c.avatarUrl.value) == Some(AvatarExt(c))
  {
    var c := Diff(before, after);
    if c.Any() {
      var downloads := if c.avatarUrl.Some? then [Download(c.avatarUrl.value)] else [];
      var stores := Stores(c, AvatarExt(c));
      var publish := Publish("member/update", Some(before.guild), UpdateContent(discrim(before), c), UPDATE_ATTRIBUTES);
      assert UpdateOutcome(before, after, discrim).effects == downloads + stores + [publish];
      StoresAmongEffects(downloads, stores, publish);
    }
  }

  /** Between downloads and an event, the store writes are exactly `stores`. */
  lemma StoresAmongEffects(downloads: seq<Effect>, stores: seq<Effect>, publish: Effect)
    requires forall e | e in downloads :: e.Download?
    requires publish.Publish?
    ensures forall e | IsStore(e) :: e in downloads + stores + [publish] <==> e in stores
  {
  }

  /** The regex is anchored at the start of the address, so an address that
      starts with `h`, as an `https://` address does, never matches: the
      update stops with ValueError after the download, before any store
      write or event. */
  lemma AnchoredAvatarAddressFails(before: Member, after: Member, discrim: Member -> string)
    requires before.avatar != after.avatar
    requires |after.avatarUrl| >= 1 && after.avatarUrl[0] == 'h'
    ensures UpdateOutcome(before, after, discrim) == Outcome([Download(after.avatarUrl)], Some(ValueError))
  {
  }

  /** Removing a nickname is not recorded: no nickname write, no "nick" part
      in the summary, and when nothing else changed, no effect at all. */
  lemma NicknameRemovalIsNotRecorded(before: Member, after: Member, discrim: Member -> string)
    requires before.nick.Some? && after.nick.None?
    ensures forall e | e in UpdateOutcome(before, after, discrim).effects :: !e.StoreNickname?
    ensures before.avatar == after.avatar && before.name == after.name ==>
              UpdateOutcome(before, after, discrim) == Outcome([], None)
  {
    var c := Diff(before, after);
    assert c.nickname.None?;
    if c.Any() && UpdateOutcome(before, after, discrim).error.None? {
      var downloads := if c.avatarUrl.Some? then [Download(c.avatarUrl.value)] else [];
      var ext := AvatarExt(c);
      var publish := Publish("member/update", Some(before.guild), UpdateContent(discrim(before), c), UPDATE_ATTRIBUTES);
      assert UpdateOutcome(before, after, discrim).effects == downloads + Stores(c, ext) + [publish];
    }
  }

  /** The summary names exactly the store writes, in the same order. */
  lemma {:induction false} SummaryDescribesStores(c: Changes, ext: string)
    ensures |SummaryParts(c)| == |Stores(c, ext)|
    ensures forall i | 0 <= i < |Stores(c, ext)| :: SummaryParts(c)[i] == Describe(Stores(c, ext)[i])
  {
    var a := if c.avatarUrl.Some? then [StoreAvatar(c.avatarUrl.value, ext)] else [];
    var u := if c.username.Some? then [StoreUsername(c.username.value)] else [];
    var n := if c.nickname.Some? then [StoreNickname(c.nickname.value)] else [];
    var pa := if c.avatarUrl.Some? then ["avatar: " + c.avatarUrl.value] else [];
    var pu := if c.username.Some? then ["name: " + c.username.value] else [];
    var pn := if c.nickname.Some? then ["nick: " + c.nickname.value] else [];
    assert Stores(c, ext) == a + u + n;
    assert SummaryParts(c) == pa + pu + pn;
    forall i | 0 <= i < |Stores(c, ext)| ensures SummaryParts(c)[i] == Describe(Stores(c, ext)[i]) {
      if i < |a| {
      } else if i < |a| + |u| {
        assert (a + u + n)[i] == u[i - |a|] && (pa + pu + pn)[i] == pu[i - |a|];
      } else {
        assert (a + u + n)[i] == n[i - |a| - |u|] && (pa + pu + pn)[i] == pn[i - |a| - |u|];
      }
    }
  }

  /** The effects of a successful update with changes: the stores and the
      download come first, and the one event is last. */
  lemma {:induction false} PublishIsLast(before: Member, after: Member, discrim: Member -> string)
    requires UpdateOutcome(before, after, discrim).error.None? && Diff(before, after).Any()
    ensures var o := UpdateOutcome(before, after, discrim);
      && |o.effects| >= 1
      && (forall i | 0 <= i < |o.effects| - 1 :: !o.effects[i].Publish?)
      && o.effects[|o.effects| - 1]
         == Publish("member/update", Some(before.guild), UpdateContent(discrim(before), Diff(before, after)), UPDATE_ATTRIBUTES)
  {
    var c := Diff(before, after);
    var o := UpdateOutcome(before, after, discrim);
    var downloads := if c.avatarUrl.Some? then [Download(c.avatarUrl.value)] else [];
    var ext := AvatarExt(c);
    var publish := Publish("member/update", Some(before.guild), UpdateContent(discrim(before), c), UPDATE_ATTRIBUTES);
    var a := if c.avatarUrl.Some? then [StoreAvatar(c.avatarUrl.value, ext)] else [];
    var u := if c.username.Some? then [StoreUsername(c.username.value)] else [];
    var n := if c.nickname.Some? then [StoreNickname(c.nickname.value)] else [];
    assert o.effects == downloads + a + u + n + [publish];
    var earlier := downloads + a + u + n;
    assert o.effects == earlier + [publish];
    forall i | 0 <= i < |o.effects| - 1 ensures !o.effects[i].Publish? {
      assert o.effects[i] == earlier[i];
      assert earlier[i] in downloads || earlier[i] in a || earlier[i] in u || earlier[i] in n;
    }
  }

  /** A successful update with changes ends with one `member/update` event
      on the member's guild, with the `person` icon and a summary that
      starts with the member and lists at least one change. A failed one
      only downloaded the avatar, whose address did not match the regex. */
  lemma {:induction false} UpdatePublishesOnce(before: Member, after: Member, discrim: Member -> string)
    ensures var o := UpdateOutcome(before, after, discrim);
      o.error.Some? <==> (before.avatar != after.avatar && MatchExtension(after.avatarUrl).None?)
    ensures var o := UpdateOutcome(before, after, discrim);
      o.error.Some? ==> o.error == Some(ValueError) && o.effects == [Download(after.avatarUrl)]
    ensures var o := UpdateOutcome(before, after, discrim);
      o.error.None? && Diff(before, after).Any() ==>
        && o.effects[|o.effects| - 1].Publish?
        && (forall i | 0 <= i < |o.effects| - 1 :: !o.effects[i].Publish?)
        && o.effects[|o.effects| - 1].suffix == "member/update"
        && o.effects[|o.effects| - 1].scope == Some(before.guild)
        && Get(o.effects[|o.effects| - 1].attributes, "icon") == Text("person")
        && o.effects[|o.effects| - 1].content == "Member " + discrim(before) + " was updated: " + Join(", ", SummaryParts(Diff(before, after)))
        && |SummaryParts(Diff(before, after))| >= 1
  {
    if UpdateOutcome(before, after, discrim).error.None? && Diff(before, after).Any() {
      PublishIsLast(before, after, discrim);
    }
  }

  // ---------------------------------------------------------------------
  // aliases
  // ---------------------------------------------------------------------

  /** A stored avatar: its bytes, its file extension and when it was set. */
  datatype AvatarRecord = AvatarRecord(data: seq<bv8>, ext: string, timestamp: int)

  /** A file attached to the reply. */
  datatype Attachment = Attachment(data: seq<bv8>, filename: string)

  /** What the alias listing reports once the member has been found:
      nothing known, or the alt ids it lists and the past avatars it attaches. */
  datatype AliasReport =
    | NoInformation
    | Listing(altIds: set<UserId>, files: seq<Attachment>)

  /** The attachment for one past avatar; `since` stands for the helper that
      renders the time elapsed since a timestamp. */
  function AvatarFile(avatar: AvatarRecord, since: int -> string): Attachment {
    Attachment(avatar.data, "avatar " + since(avatar.timestamp) + "." + avatar.ext)
  }

  /** The alias listing after the store returned the member's history: the
      member is taken out of their own alt chain (an absent id is no error),
      an empty history reports nothing, and otherwise every past avatar is
      attached in order. */
  method Aliases(userId: UserId, avatars: seq<AvatarRecord>, usernames: seq<(string, int)>,
                 nicknames: seq<(string, int)>, altUserIds: set<UserId>, since: int -> string)
    returns (report: AliasReport)
    ensures report.NoInformation? <==>
              avatars == [] && usernames == [] && nicknames == [] && altUserIds <= {userId}
    ensures report.Listing? ==> report.altIds == altUserIds - {userId} && userId !in report.altIds
    ensures report.Listing? ==>
              |report.files| == |avatars|
              && forall i | 0 <= i < |avatars| :: report.files[i] == AvatarFile(avatars[i], since)
  {
    var altIds := altUserIds;
    if userId in altIds {
      altIds := altIds - {userId};
    }

    if avatars == [] && usernames == [] && nicknames == [] && altIds == {} {
      return NoInformation;
    }

    var files: seq<Attachment> := [];
    for i := 0 to |avatars|
      invariant |files| == i
      invariant forall k | 0 <= k < i :: files[k] == AvatarFile(avatars[k], since)
    {
      files := files + [AvatarFile(avatars[i], since)];
    }
    report := Listing(altIds, files);
  }

  // ---------------------------------------------------------------------
  // The events of the alt-account commands
  // ---------------------------------------------------------------------

  /** The event `alts add` publishes once the pair is stored. */
  function AltAddEvent(guild: Guild, firstMention: string, secondMention: string): (e: Effect)
    ensures e.Publish? && e.suffix == "alt/add" && e.scope == Some(guild)
    ensures Get(e.attributes, "icon") == Text("item_add")
    ensures "users" in e.attributes && e.attributes["users"].List? && |e.attributes["users"].items| == 2
  {
    Publish("alt/add", Some(guild),
      "Added " + firstMention + " and " + secondMention + " as possible alt accounts.",
      map["icon" := Text("item_add"), "users" := List([Object("Member"), Object("Member")])])
  }

  /** The event `alts delchain` publishes once the chain is deleted. */
  function AltClearEvent(guild: Guild, mention: string): (e: Effect)
    ensures e.Publish? && e.suffix == "alt/clear" && e.scope == Some(guild)
    ensures Get(e.attributes, "icon") == Text("item_clear")
    ensures "user" in e.attributes && e.attributes["user"] == Object("Member")
  {
    Publish("alt/clear", Some(guild),
      "Removed all alt accounts in " + mention + "'s chain",
      map["icon" := Text("item_clear"), "user" := Object("Member")])
  }
}
