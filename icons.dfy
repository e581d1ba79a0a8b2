/** The icon registry of the channel sink: a fixed table from icon name to a
    one-character glyph. The source writes it as one dictionary literal with
    comment headings; here each heading is its own sequence of entries, and the
    dictionary is built from their concatenation with the semantics of a Python
    dictionary literal (a later entry with the same key would win). */
module Icons {

  type Entry = (string, char)

  /** Logging levels */
  const LOGGING_ICONS: seq<Entry> := [
    ("info", '\U{2139}'),      // INFORMATION SOURCE
    ("idea", '\U{1F4A1}'),     // ELECTRIC LIGHT BULB
    ("warning", '\U{26A0}'),   // WARNING SIGN
    ("error", '\U{274C}'),     // CROSS MARK
    ("forbidden", '\U{26D4}'), // NO ENTRY
    ("critical", '\U{1F198}'), // SQUARED SOS
    ("ok", '\U{1F197}'),       // SQUARED OK
    ("announce", '\U{1F4E3}')  // CHEERING MEGAPHONE
  ]

  /** Moderation */
  const MODERATION_ICONS: seq<Entry> := [
    ("ban", '\U{1F528}'),     // HAMMER
    ("kick", '\U{1F462}'),    // WOMANS BOOTS
    ("muffled", '\U{1F637}'), // FACE WITH MEDICAL MASK
    ("mute", '\U{1F64A}'),    // SPEAK-NO-EVIL MONKEY
    ("jail", '\U{1F6A8}')     // POLICE CARS REVOLVING LIGHT
  ]

  /** Filter */
  const FILTER_ICONS: seq<Entry> := [
    ("flag", '\U{1F6A9}'),    // TRIANGULAR FLAG ON POST
    ("deleted", '\U{1F480}'), // SKULL
    ("nsfw", '\U{1F51E}')     // NO ONE UNDER EIGHTEEN SYMBOL
  ]

  /** Mail */
  const MAIL_ICONS: seq<Entry> := [
    ("has-mail", '\U{1F4EC}'), // OPEN MAILBOX WITH RAISED FLAG
    ("no-mail", '\U{1F4EA}')   // CLOSED MAILBOX WITH LOWERED FLAG
  ]

  /** Watchdog */
  const WATCHDOG_ICONS: seq<Entry> := [
    ("investigate", '\U{1F575}'), // SLEUTH OR SPY
    ("watch", '\U{1F441}')        // EYE
  ]

  /** Configuration */
  const CONFIGURATION_ICONS: seq<Entry> := [
    ("edit", '\U{1F4DD}'),     // MEMO
    ("save", '\U{1F4BE}'),     // FLOPPY DISK
    ("writing", '\U{270D}'),   // WRITING HAND
    ("settings", '\U{1F6E0}')  // HAMMER AND WRENCH
  ]

  /** Development */
  const DEVELOPMENT_ICONS: seq<Entry> := [
    ("deploy", '\U{1F680}'),  // ROCKET
    ("package", '\U{1F4E6}'), // PACKAGE
    ("script", '\U{1F4DC}')   // SCROLL
  ]

  /** Security */
  const SECURITY_ICONS: seq<Entry> := [
    ("key", '\U{1F511}'),    // KEY
    ("lock", '\U{1F512}'),   // LOCK
    ("unlock", '\U{1F513}')  // OPEN LOCK
  ]

  /** Documents */
  const DOCUMENT_ICONS: seq<Entry> := [
    ("folder", '\U{1F4C2}'),     // OPEN FILE FOLDER
    ("file", '\U{1F4C4}'),       // PAGE FACING UP
    ("book", '\U{1F4D4}'),       // NOTEBOOK WITH DECORATIVE COVER
    ("upload", '\U{1F4E4}'),     // OUTBOX TRAY
    ("download", '\U{1F4E5}'),   // INBOX TRAY
    ("bookmark", '\U{1F516}'),   // BOOKMARK
    ("journal", '\U{1F4D2}'),    // LEDGER
    ("attachment", '\U{1F4CE}'), // PAPERCLIP
    ("clipboard", '\U{1F4CB}'),  // CLIPBOARD
    ("pin", '\U{1F4CC}'),        // PUSHPIN
    ("briefcase", '\U{1F4BC}'),  // BRIEFCASE
    ("cabinet", '\U{1F5C3}'),    // CARD FILE BOX
    ("trash", '\U{1F5D1}')       // WASTEBASKET
  ]

  /** Miscellaneous */
  const MISCELLANEOUS_ICONS: seq<Entry> := [
    ("hourglass", '\U{23F3}'),      // HOURGLASS WITH FLOWING SAND
    ("person", '\U{1F464}'),        // BUST IN SILHOUETTE
    ("navigate", '\U{1F9ED}'),      // COMPASS
    ("bot", '\U{1F916}'),           // ROBOT FACE
    ("news", '\U{1F4F0}'),          // NEWSPAPER
    ("art", '\U{1F3A8}'),           // ARTIST PALETTE
    ("tag", '\U{1F3AB}'),           // TICKET
    ("music", '\U{1F3B5}'),         // MUSICAL NOTE
    ("link", '\U{1F517}'),          // LINK SYMBOL
    ("alert", '\U{1F514}'),         // BELL
    ("game", '\U{1F3AE}'),          // VIDEO GAME
    ("search", '\U{1F50D}'),        // LEFT-POINTING MAGNIFYING GLASS
    ("bomb", '\U{1F4A3}'),          // BOMB
    ("gift", '\U{1F381}'),          // WRAPPED PRESENT
    ("celebration", '\U{1F389}'),   // PARTY POPPER
    ("international", '\U{1F310}'), // GLOBE WITH MERIDIANS
    ("award", '\U{1F3C6}'),         // TROPHY
    ("luck", '\U{1F340}')           // FOUR LEAF CLOVER
  ]
  /** The entries of the dictionary literal, in the order they are written. */
  const ICON_TABLE: seq<Entry> :=
    LOGGING_ICONS + MODERATION_ICONS + FILTER_ICONS + MAIL_ICONS + WATCHDOG_ICONS
    + CONFIGURATION_ICONS + DEVELOPMENT_ICONS + SECURITY_ICONS + DOCUMENT_ICONS
    + MISCELLANEOUS_ICONS

  /** `ICONS`: icon name to glyph. */
  const ICONS: map<string, string> := DictOf(ICON_TABLE)

  /** The dictionary a Python literal with these entries evaluates to. */
  function DictOf(entries: seq<Entry>): (m: map<string, string>)
    ensures |m| <= |entries|
    decreases |entries|
  {
    if entries == [] then map[]
    else
      var last := entries[|entries| - 1];
      DictOf(entries[..|entries| - 1])[last.0 := [last.1]]
  }

  /** No key is written twice, so no entry is shadowed by a later one. */
  ghost predicate DistinctNames(entries: seq<Entry>) {
    forall i, j | 0 <= i < j < |entries| :: entries[i].0 != entries[j].0
  }

  ghost predicate DistinctGlyphs(entries: seq<Entry>) {
    forall i, j | 0 <= i < j < |entries| :: entries[i].1 != entries[j].1
  }

  ghost predicate NamesDisjoint(a: seq<Entry>, b: seq<Entry>) {
    forall i, j | 0 <= i < |a| && 0 <= j < |b| :: a[i].0 != b[j].0
  }

  ghost predicate GlyphsDisjoint(a: seq<Entry>, b: seq<Entry>) {
    forall i, j | 0 <= i < |a| && 0 <= j < |b| :: a[i].1 != b[j].1
  }

  /** A name is a key of the dictionary exactly when some entry carries it. */
  lemma {:induction false} DictOfKeys(entries: seq<Entry>, name: string)
    ensures name in DictOf(entries) <==> exists i :: 0 <= i < |entries| && entries[i].0 == name
    decreases |entries|
  {
    if entries != [] {
      var init := entries[..|entries| - 1];
      DictOfKeys(init, name);
      if name in DictOf(init) {
        var i :| 0 <= i < |init| && init[i].0 == name;
        assert entries[i].0 == name;
      }
      if exists i :: 0 <= i < |entries| && entries[i].0 == name {
        var i :| 0 <= i < |entries| && entries[i].0 == name;
        if i < |init| {
          assert init[i].0 == name;
        }
      }
    }
  }

  /** With distinct names, every entry survives and maps its name to its glyph. */
  lemma {:induction false} DictOfLookup(entries: seq<Entry>, i: nat)
    requires DistinctNames(entries)
    requires i < |entries|
    ensures entries[i].0 in DictOf(entries)
    ensures DictOf(entries)[entries[i].0] == [entries[i].1]
    decreases |entries|
  {
    var init := entries[..|entries| - 1];
    if i < |init| {
      assert DistinctNames(init) by {
        forall a, b | 0 <= a < b < |init| ensures init[a].0 != init[b].0 {
          assert init[a] == entries[a] && init[b] == entries[b];
        }
      }
      DictOfLookup(init, i);
      assert init[i] == entries[i];
    }
  }

  /** With distinct names, the dictionary has one key per entry. */
  lemma {:induction false} DictOfSize(entries: seq<Entry>)
    requires DistinctNames(entries)
    ensures |DictOf(entries)| == |entries|
    decreases |entries|
  {
    if entries != [] {
      var init := entries[..|entries| - 1];
      var last := entries[|entries| - 1];
      assert DistinctNames(init) by {
        forall a, b | 0 <= a < b < |init| ensures init[a].0 != init[b].0 {
          assert init[a] == entries[a] && init[b] == entries[b];
        }
      }
      DictOfSize(init);
      DictOfKeys(init, last.0);
      assert last.0 !in DictOf(init) by {
        forall i | 0 <= i < |init| ensures init[i].0 != last.0 {
          assert init[i] == entries[i];
        }
      }
    }
  }

  lemma DistinctNamesConcat(a: seq<Entry>, b: seq<Entry>)
    requires DistinctNames(a) && DistinctNames(b) && NamesDisjoint(a, b)
    ensures DistinctNames(a + b)
  {
    forall i, j | 0 <= i < j < |a + b| ensures (a + b)[i].0 != (a + b)[j].0 {
      if j < |a| {
      } else if i < |a| {
        assert (a + b)[j] == b[j - |a|];
      } else {
        assert (a + b)[i] == b[i - |a|] && (a + b)[j] == b[j - |a|];
      }
    }
  }

  lemma DistinctGlyphsConcat(a: seq<Entry>, b: seq<Entry>)
    requires DistinctGlyphs(a) && DistinctGlyphs(b) && GlyphsDisjoint(a, b)
    ensures DistinctGlyphs(a + b)
  {
    forall i, j | 0 <= i < j < |a + b| ensures (a + b)[i].1 != (a + b)[j].1 {
      if j < |a| {
      } else if i < |a| {
        assert (a + b)[j] == b[j - |a|];
      } else {
        assert (a + b)[i] == b[i - |a|] && (a + b)[j] == b[j - |a|];
      }
    }
  }

  lemma NamesDisjointConcat(a: seq<Entry>, b: seq<Entry>, c: seq<Entry>)
    requires NamesDisjoint(a, c) && NamesDisjoint(b, c)
    ensures NamesDisjoint(a + b, c)
  {
    forall i, j | 0 <= i < |a + b| && 0 <= j < |c| ensures (a + b)[i].0 != c[j].0 {
      if i >= |a| {
        assert (a + b)[i] == b[i - |a|];
      }
    }
  }

  // The per-group lemmas below only split the distinctness proofs of the
  // 61-entry table into pieces the solver can finish; they model nothing.

  /** The moderation group repeats no name, neither its own nor one of an earlier group. */
  lemma ModerationNamesAreNew()
    ensures DistinctNames(MODERATION_ICONS)
    ensures NamesDisjoint(LOGGING_ICONS, MODERATION_ICONS)
  {
    assert NamesDisjoint(LOGGING_ICONS, MODERATION_ICONS);
  }

  /** The filter group repeats no name, neither its own nor one of an earlier group. */
  lemma FilterNamesAreNew()
    ensures DistinctNames(FILTER_ICONS)
    ensures NamesDisjoint(LOGGING_ICONS + MODERATION_ICONS, FILTER_ICONS)
  {
    assert NamesDisjoint(LOGGING_ICONS, FILTER_ICONS);
    assert NamesDisjoint(MODERATION_ICONS, FILTER_ICONS);
    NamesDisjointConcat(LOGGING_ICONS, MODERATION_ICONS, FILTER_ICONS);
  }

  /** The mail group repeats no name, neither its own nor one of an earlier group. */
  lemma MailNamesAreNew()
    ensures DistinctNames(MAIL_ICONS)
    ensures NamesDisjoint(LOGGING_ICONS + MODERATION_ICONS + FILTER_ICONS, MAIL_ICONS)
  {
    assert NamesDisjoint(LOGGING_ICONS, MAIL_ICONS);
    assert NamesDisjoint(MODERATION_ICONS, MAIL_ICONS);
    assert NamesDisjoint(FILTER_ICONS, MAIL_ICONS);
    NamesDisjointConcat(LOGGING_ICONS, MODERATION_ICONS, MAIL_ICONS);
    NamesDisjointConcat(LOGGING_ICONS + MODERATION_ICONS, FILTER_ICONS, MAIL_ICONS);
  }

  /** The watchdog group repeats no name, neither its own nor one of an earlier group. */
  lemma WatchdogNamesAreNew()
    ensures DistinctNames(WATCHDOG_ICONS)
    ensures NamesDisjoint(LOGGING_ICONS + MODERATION_ICONS + FILTER_ICONS + MAIL_ICONS, WATCHDOG_ICONS)
  {
    assert NamesDisjoint(LOGGING_ICONS, WATCHDOG_ICONS);
    assert NamesDisjoint(MODERATION_ICONS, WATCHDOG_ICONS);
    assert NamesDisjoint(FILTER_ICONS, WATCHDOG_ICONS);
    assert NamesDisjoint(MAIL_ICONS, WATCHDOG_ICONS);
    NamesDisjointConcat(LOGGING_ICONS, MODERATION_ICONS, WATCHDOG_ICONS);
    NamesDisjointConcat(LOGGING_ICONS + MODERATION_ICONS, FILTER_ICONS, WATCHDOG_ICONS);
    NamesDisjointConcat(LOGGING_ICONS + MODERATION_ICONS + FILTER_ICONS, MAIL_ICONS, WATCHDOG_ICONS);
  }

  /** The configuration group repeats no name, neither its own nor one of an earlier group. */
  lemma ConfigurationNamesAreNew()
    ensures DistinctNames(CONFIGURATION_ICONS)
    ensures NamesDisjoint(LOGGING_ICONS + MODERATION_ICONS + FILTER_ICONS + MAIL_ICONS + WATCHDOG_ICONS, CONFIGURATION_ICONS)
  {
    assert NamesDisjoint(LOGGING_ICONS, CONFIGURATION_ICONS);
    assert NamesDisjoint(MODERATION_ICONS, CONFIGURATION_ICONS);
    assert NamesDisjoint(FILTER_ICONS, CONFIGURATION_ICONS);
    assert NamesDisjoint(MAIL_ICONS, CONFIGURATION_ICONS);
    assert NamesDisjoint(WATCHDOG_ICONS, CONFIGURATION_ICONS);
    NamesDisjointConcat(LOGGING_ICONS, MODERATION_ICONS, CONFIGURATION_ICONS);
    NamesDisjointConcat(LOGGING_ICONS + MODERATION_ICONS, FILTER_ICONS, CONFIGURATION_ICONS);
    NamesDisjointConcat(LOGGING_ICONS + MODERATION_ICONS + FILTER_ICONS, MAIL_ICONS, CONFIGURATION_ICONS);
    NamesDisjointConcat(LOGGING_ICONS + MODERATION_ICONS + FILTER_ICONS + MAIL_ICONS, WATCHDOG_ICONS, CONFIGURATION_ICONS);
  }

  /** The development group repeats no name, neither its own nor one of an earlier group. */
  lemma DevelopmentNamesAreNew()
    ensures DistinctNames(DEVELOPMENT_ICONS)
    ensures NamesDisjoint(LOGGING_ICONS + MODERATION_ICONS + FILTER_ICONS + MAIL_ICONS + WATCHDOG_ICONS + CONFIGURATION_ICONS, DEVELOPMENT_ICONS)
  {
    assert NamesDisjoint(LOGGING_ICONS, DEVELOPMENT_ICONS);
    assert NamesDisjoint(MODERATION_ICONS, DEVELOPMENT_ICONS);
    assert NamesDisjoint(FILTER_ICONS, DEVELOPMENT_ICONS);
    assert NamesDisjoint(MAIL_ICONS, DEVELOPMENT_ICONS);
    assert NamesDisjoint(WATCHDOG_ICONS, DEVELOPMENT_ICONS);
    assert NamesDisjoint(CONFIGURATION_ICONS, DEVELOPMENT_ICONS);
    NamesDisjointConcat(LOGGING_ICONS, MODERATION_ICONS, DEVELOPMENT_ICONS);
    NamesDisjointConcat(LOGGING_ICONS + MODERATION_ICONS, FILTER_ICONS, DEVELOPMENT_ICONS);
    NamesDisjointConcat(LOGGING_ICONS + MODERATION_ICONS + FILTER_ICONS, MAIL_ICONS, DEVELOPMENT_ICONS);
    NamesDisjointConcat(LOGGING_ICONS + MODERATION_ICONS + FILTER_ICONS + MAIL_ICONS, WATCHDOG_ICONS, DEVELOPMENT_ICONS);
    NamesDisjointConcat(LOGGING_ICONS + MODERATION_ICONS + FILTER_ICONS + MAIL_ICONS + WATCHDOG_ICONS, CONFIGURATION_ICONS, DEVELOPMENT_ICONS);
  }

  /** The security group repeats no name, neither its own nor one of an earlier group. */
  lemma SecurityNamesAreNew()
    ensures DistinctNames(SECURITY_ICONS)
    ensures NamesDisjoint(LOGGING_ICONS + MODERATION_ICONS + FILTER_ICONS + MAIL_ICONS + WATCHDOG_ICONS + CONFIGURATION_ICONS + DEVELOPMENT_ICONS, SECURITY_ICONS)
  {
    assert NamesDisjoint(LOGGING_ICONS, SECURITY_ICONS);
    assert NamesDisjoint(MODERATION_ICONS, SECURITY_ICONS);
    assert NamesDisjoint(FILTER_ICONS, SECURITY_ICONS);
    assert NamesDisjoint(MAIL_ICONS, SECURITY_ICONS);
    assert NamesDisjoint(WATCHDOG_ICONS, SECURITY_ICONS);
    assert NamesDisjoint(CONFIGURATION_ICONS, SECURITY_ICONS);
    assert NamesDisjoint(DEVELOPMENT_ICONS, SECURITY_ICONS);
    NamesDisjointConcat(LOGGING_ICONS, MODERATION_ICONS, SECURITY_ICONS);
    NamesDisjointConcat(LOGGING_ICONS + MODERATION_ICONS, FILTER_ICONS, SECURITY_ICONS);
    NamesDisjointConcat(LOGGING_ICONS + MODERATION_ICONS + FILTER_ICONS, MAIL_ICONS, SECURITY_ICONS);
    NamesDisjointConcat(LOGGING_ICONS + MODERATION_ICONS + FILTER_ICONS + MAIL_ICONS, WATCHDOG_ICONS, SECURITY_ICONS);
    NamesDisjointConcat(LOGGING_ICONS + MODERATION_ICONS + FILTER_ICONS + MAIL_ICONS + WATCHDOG_ICONS, CONFIGURATION_ICONS, SECURITY_ICONS);
    NamesDisjointConcat(LOGGING_ICONS + MODERATION_ICONS + FILTER_ICONS + MAIL_ICONS + WATCHDOG_ICONS + CONFIGURATION_ICONS, DEVELOPMENT_ICONS, SECURITY_ICONS);
  }

  lemma DocumentNamesAreNewToFirstGroups()
    ensures NamesDisjoint(LOGGING_ICONS + MODERATION_ICONS + FILTER_ICONS + MAIL_ICONS + WATCHDOG_ICONS, DOCUMENT_ICONS)
  {
    assert NamesDisjoint(LOGGING_ICONS, DOCUMENT_ICONS);
    assert NamesDisjoint(MODERATION_ICONS, DOCUMENT_ICONS);
    assert NamesDisjoint(FILTER_ICONS, DOCUMENT_ICONS);
    assert NamesDisjoint(MAIL_ICONS, DOCUMENT_ICONS);
    assert NamesDisjoint(WATCHDOG_ICONS, DOCUMENT_ICONS);
    NamesDisjointConcat(LOGGING_ICONS, MODERATION_ICONS, DOCUMENT_ICONS);
    NamesDisjointConcat(LOGGING_ICONS + MODERATION_ICONS, FILTER_ICONS, DOCUMENT_ICONS);
    NamesDisjointConcat(LOGGING_ICONS + MODERATION_ICONS + FILTER_ICONS, MAIL_ICONS, DOCUMENT_ICONS);
    NamesDisjointConcat(LOGGING_ICONS + MODERATION_ICONS + FILTER_ICONS + MAIL_ICONS, WATCHDOG_ICONS, DOCUMENT_ICONS);
  }

  /** The document group repeats no name, neither its own nor one of an earlier group. */
  lemma DocumentNamesAreNew()
    ensures DistinctNames(DOCUMENT_ICONS)
    ensures NamesDisjoint(LOGGING_ICONS + MODERATION_ICONS + FILTER_ICONS + MAIL_ICONS + WATCHDOG_ICONS + CONFIGURATION_ICONS + DEVELOPMENT_ICONS + SECURITY_ICONS, DOCUMENT_ICONS)
  {
    DocumentNamesAreNewToFirstGroups();
    assert NamesDisjoint(CONFIGURATION_ICONS, DOCUMENT_ICONS);
    assert NamesDisjoint(DEVELOPMENT_ICONS, DOCUMENT_ICONS);
    assert NamesDisjoint(SECURITY_ICONS, DOCUMENT_ICONS);
    NamesDisjointConcat(LOGGING_ICONS + MODERATION_ICONS + FILTER_ICONS + MAIL_ICONS + WATCHDOG_ICONS, CONFIGURATION_ICONS, DOCUMENT_ICONS);
    NamesDisjointConcat(LOGGING_ICONS + MODERATION_ICONS + FILTER_ICONS + MAIL_ICONS + WATCHDOG_ICONS + CONFIGURATION_ICONS, DEVELOPMENT_ICONS, DOCUMENT_ICONS);
    NamesDisjointConcat(LOGGING_ICONS + MODERATION_ICONS + FILTER_ICONS + MAIL_ICONS + WATCHDOG_ICONS + CONFIGURATION_ICONS + DEVELOPMENT_ICONS, SECURITY_ICONS, DOCUMENT_ICONS);
  }

  lemma MiscellaneousNamesAreNewToFirstGroups()
    ensures NamesDisjoint(LOGGING_ICONS + MODERATION_ICONS + FILTER_ICONS + MAIL_ICONS + WATCHDOG_ICONS, MISCELLANEOUS_ICONS)
  {
    assert NamesDisjoint(LOGGING_ICONS, MISCELLANEOUS_ICONS);
    assert NamesDisjoint(MODERATION_ICONS, MISCELLANEOUS_ICONS);
    assert NamesDisjoint(FILTER_ICONS, MISCELLANEOUS_ICONS);
    assert NamesDisjoint(MAIL_ICONS, MISCELLANEOUS_ICONS);
    assert NamesDisjoint(WATCHDOG_ICONS, MISCELLANEOUS_ICONS);
    NamesDisjointConcat(LOGGING_ICONS, MODERATION_ICONS, MISCELLANEOUS_ICONS);
    NamesDisjointConcat(LOGGING_ICONS + MODERATION_ICONS, FILTER_ICONS, MISCELLANEOUS_ICONS);
    NamesDisjointConcat(LOGGING_ICONS + MODERATION_ICONS + FILTER_ICONS, MAIL_ICONS, MISCELLANEOUS_ICONS);
    NamesDisjointConcat(LOGGING_ICONS + MODERATION_ICONS + FILTER_ICONS + MAIL_ICONS, WATCHDOG_ICONS, MISCELLANEOUS_ICONS);
  }

  lemma MiscellaneousNamesAreNewToDocuments()
    ensures NamesDisjoint(DOCUMENT_ICONS, MISCELLANEOUS_ICONS)
  {
    assert NamesDisjoint(DOCUMENT_ICONS[..7], MISCELLANEOUS_ICONS);
    assert NamesDisjoint(DOCUMENT_ICONS[7..], MISCELLANEOUS_ICONS);
    NamesDisjointConcat(DOCUMENT_ICONS[..7], DOCUMENT_ICONS[7..], MISCELLANEOUS_ICONS);
    assert DOCUMENT_ICONS[..7] + DOCUMENT_ICONS[7..] == DOCUMENT_ICONS;
  }

  /** The miscellaneous group repeats no name, neither its own nor one of an earlier group. */
  lemma MiscellaneousNamesAreNew()
    ensures DistinctNames(MISCELLANEOUS_ICONS)
    ensures NamesDisjoint(LOGGING_ICONS + MODERATION_ICONS + FILTER_ICONS + MAIL_ICONS + WATCHDOG_ICONS + CONFIGURATION_ICONS + DEVELOPMENT_ICONS + SECURITY_ICONS + DOCUMENT_ICONS, MISCELLANEOUS_ICONS)
  {
    MiscellaneousNamesAreNewToFirstGroups();
    assert NamesDisjoint(CONFIGURATION_ICONS, MISCELLANEOUS_ICONS);
    assert NamesDisjoint(DEVELOPMENT_ICONS, MISCELLANEOUS_ICONS);
    assert NamesDisjoint(SECURITY_ICONS, MISCELLANEOUS_ICONS);
    MiscellaneousNamesAreNewToDocuments();
    NamesDisjointConcat(LOGGING_ICONS + MODERATION_ICONS + FILTER_ICONS + MAIL_ICONS + WATCHDOG_ICONS, CONFIGURATION_ICONS, MISCELLANEOUS_ICONS);
    NamesDisjointConcat(LOGGING_ICONS + MODERATION_ICONS + FILTER_ICONS + MAIL_ICONS + WATCHDOG_ICONS + CONFIGURATION_ICONS, DEVELOPMENT_ICONS, MISCELLANEOUS_ICONS);
    NamesDisjointConcat(LOGGING_ICONS + MODERATION_ICONS + FILTER_ICONS + MAIL_ICONS + WATCHDOG_ICONS + CONFIGURATION_ICONS + DEVELOPMENT_ICONS, SECURITY_ICONS, MISCELLANEOUS_ICONS);
    NamesDisjointConcat(LOGGING_ICONS + MODERATION_ICONS + FILTER_ICONS + MAIL_ICONS + WATCHDOG_ICONS + CONFIGURATION_ICONS + DEVELOPMENT_ICONS + SECURITY_ICONS, DOCUMENT_ICONS, MISCELLANEOUS_ICONS);
  }

  /** The moderation group repeats no glyph, neither its own nor one of an earlier group. */
  lemma ModerationGlyphsAreNew()
    ensures DistinctGlyphs(MODERATION_ICONS)
    ensures GlyphsDisjoint(LOGGING_ICONS, MODERATION_ICONS)
  {
    assert GlyphsDisjoint(LOGGING_ICONS, MODERATION_ICONS);
  }

  /** The filter group repeats no glyph, neither its own nor one of an earlier group. */
  lemma FilterGlyphsAreNew()
    ensures DistinctGlyphs(FILTER_ICONS)
    ensures GlyphsDisjoint(LOGGING_ICONS + MODERATION_ICONS, FILTER_ICONS)
  {
    assert GlyphsDisjoint(LOGGING_ICONS, FILTER_ICONS);
    assert GlyphsDisjoint(MODERATION_ICONS, FILTER_ICONS);
    GlyphsDisjointConcat(LOGGING_ICONS, MODERATION_ICONS, FILTER_ICONS);
  }

  /** The mail group repeats no glyph, neither its own nor one of an earlier group. */
  lemma MailGlyphsAreNew()
    ensures DistinctGlyphs(MAIL_ICONS)
    ensures GlyphsDisjoint(LOGGING_ICONS + MODERATION_ICONS + FILTER_ICONS, MAIL_ICONS)
  {
    assert GlyphsDisjoint(LOGGING_ICONS, MAIL_ICONS);
    assert GlyphsDisjoint(MODERATION_ICONS, MAIL_ICONS);
    assert GlyphsDisjoint(FILTER_ICONS, MAIL_ICONS);
    GlyphsDisjointConcat(LOGGING_ICONS, MODERATION_ICONS, MAIL_ICONS);
    GlyphsDisjointConcat(LOGGING_ICONS + MODERATION_ICONS, FILTER_ICONS, MAIL_ICONS);
  }

  /** The watchdog group repeats no glyph, neither its own nor one of an earlier group. */
  lemma WatchdogGlyphsAreNew()
    ensures DistinctGlyphs(WATCHDOG_ICONS)
    ensures GlyphsDisjoint(LOGGING_ICONS + MODERATION_ICONS + FILTER_ICONS + MAIL_ICONS, WATCHDOG_ICONS)
  {
    assert GlyphsDisjoint(LOGGING_ICONS, WATCHDOG_ICONS);
    assert GlyphsDisjoint(MODERATION_ICONS, WATCHDOG_ICONS);
    assert GlyphsDisjoint(FILTER_ICONS, WATCHDOG_ICONS);
    assert GlyphsDisjoint(MAIL_ICONS, WATCHDOG_ICONS);
    GlyphsDisjointConcat(LOGGING_ICONS, MODERATION_ICONS, WATCHDOG_ICONS);
    GlyphsDisjointConcat(LOGGING_ICONS + MODERATION_ICONS, FILTER_ICONS, WATCHDOG_ICONS);
    GlyphsDisjointConcat(LOGGING_ICONS + MODERATION_ICONS + FILTER_ICONS, MAIL_ICONS, WATCHDOG_ICONS);
  }

  /** The configuration group repeats no glyph, neither its own nor one of an earlier group. */
  lemma ConfigurationGlyphsAreNew()
    ensures DistinctGlyphs(CONFIGURATION_ICONS)
    ensures GlyphsDisjoint(LOGGING_ICONS + MODERATION_ICONS + FILTER_ICONS + MAIL_ICONS + WATCHDOG_ICONS, CONFIGURATION_ICONS)
  {
    assert GlyphsDisjoint(LOGGING_ICONS, CONFIGURATION_ICONS);
    assert GlyphsDisjoint(MODERATION_ICONS, CONFIGURATION_ICONS);
    assert GlyphsDisjoint(FILTER_ICONS, CONFIGURATION_ICONS);
    assert GlyphsDisjoint(MAIL_ICONS, CONFIGURATION_ICONS);
    assert GlyphsDisjoint(WATCHDOG_ICONS, CONFIGURATION_ICONS);
    GlyphsDisjointConcat(LOGGING_ICONS, MODERATION_ICONS, CONFIGURATION_ICONS);
    GlyphsDisjointConcat(LOGGING_ICONS + MODERATION_ICONS, FILTER_ICONS, CONFIGURATION_ICONS);
    GlyphsDisjointConcat(LOGGING_ICONS + MODERATION_ICONS + FILTER_ICONS, MAIL_ICONS, CONFIGURATION_ICONS);
    GlyphsDisjointConcat(LOGGING_ICONS + MODERATION_ICONS + FILTER_ICONS + MAIL_ICONS, WATCHDOG_ICONS, CONFIGURATION_ICONS);
  }

  /** The development group repeats no glyph, neither its own nor one of an earlier group. */
  lemma DevelopmentGlyphsAreNew()
    ensures DistinctGlyphs(DEVELOPMENT_ICONS)
    ensures GlyphsDisjoint(LOGGING_ICONS + MODERATION_ICONS + FILTER_ICONS + MAIL_ICONS + WATCHDOG_ICONS + CONFIGURATION_ICONS, DEVELOPMENT_ICONS)
  {
    assert GlyphsDisjoint(LOGGING_ICONS, DEVELOPMENT_ICONS);
    assert GlyphsDisjoint(MODERATION_ICONS, DEVELOPMENT_ICONS);
    assert GlyphsDisjoint(FILTER_ICONS, DEVELOPMENT_ICONS);
    assert GlyphsDisjoint(MAIL_ICONS, DEVELOPMENT_ICONS);
    assert GlyphsDisjoint(WATCHDOG_ICONS, DEVELOPMENT_ICONS);
    assert GlyphsDisjoint(CONFIGURATION_ICONS, DEVELOPMENT_ICONS);
    GlyphsDisjointConcat(LOGGING_ICONS, MODERATION_ICONS, DEVELOPMENT_ICONS);
    GlyphsDisjointConcat(LOGGING_ICONS + MODERATION_ICONS, FILTER_ICONS, DEVELOPMENT_ICONS);
    GlyphsDisjointConcat(LOGGING_ICONS + MODERATION_ICONS + FILTER_ICONS, MAIL_ICONS, DEVELOPMENT_ICONS);
    GlyphsDisjointConcat(LOGGING_ICONS + MODERATION_ICONS + FILTER_ICONS + MAIL_ICONS, WATCHDOG_ICONS, DEVELOPMENT_ICONS);
    GlyphsDisjointConcat(LOGGING_ICONS + MODERATION_ICONS + FILTER_ICONS + MAIL_ICONS + WATCHDOG_ICONS, CONFIGURATION_ICONS, DEVELOPMENT_ICONS);
  }

  /** The security group repeats no glyph, neither its own nor one of an earlier group. */
  lemma SecurityGlyphsAreNew()
    ensures DistinctGlyphs(SECURITY_ICONS)
    ensures GlyphsDisjoint(LOGGING_ICONS + MODERATION_ICONS + FILTER_ICONS + MAIL_ICONS + WATCHDOG_ICONS + CONFIGURATION_ICONS + DEVELOPMENT_ICONS, SECURITY_ICONS)
  {
    assert GlyphsDisjoint(LOGGING_ICONS, SECURITY_ICONS);
    assert GlyphsDisjoint(MODERATION_ICONS, SECURITY_ICONS);
    assert GlyphsDisjoint(FILTER_ICONS, SECURITY_ICONS);
    assert GlyphsDisjoint(MAIL_ICONS, SECURITY_ICONS);
    assert GlyphsDisjoint(WATCHDOG_ICONS, SECURITY_ICONS);
    assert GlyphsDisjoint(CONFIGURATION_ICONS, SECURITY_ICONS);
    assert GlyphsDisjoint(DEVELOPMENT_ICONS, SECURITY_ICONS);
    GlyphsDisjointConcat(LOGGING_ICONS, MODERATION_ICONS, SECURITY_ICONS);
    GlyphsDisjointConcat(LOGGING_ICONS + MODERATION_ICONS, FILTER_ICONS, SECURITY_ICONS);
    GlyphsDisjointConcat(LOGGING_ICONS + MODERATION_ICONS + FILTER_ICONS, MAIL_ICONS, SECURITY_ICONS);
    GlyphsDisjointConcat(LOGGING_ICONS + MODERATION_ICONS + FILTER_ICONS + MAIL_ICONS, WATCHDOG_ICONS, SECURITY_ICONS);
    GlyphsDisjointConcat(LOGGING_ICONS + MODERATION_ICONS + FILTER_ICONS + MAIL_ICONS + WATCHDOG_ICONS, CONFIGURATION_ICONS, SECURITY_ICONS);
    GlyphsDisjointConcat(LOGGING_ICONS + MODERATION_ICONS + FILTER_ICONS + MAIL_ICONS + WATCHDOG_ICONS + CONFIGURATION_ICONS, DEVELOPMENT_ICONS, SECURITY_ICONS);
  }

  lemma DocumentGlyphsAreNewToFirstGroups()
    ensures GlyphsDisjoint(LOGGING_ICONS + MODERATION_ICONS + FILTER_ICONS + MAIL_ICONS + WATCHDOG_ICONS, DOCUMENT_ICONS)
  {
    assert GlyphsDisjoint(LOGGING_ICONS, DOCUMENT_ICONS);
    assert GlyphsDisjoint(MODERATION_ICONS, DOCUMENT_ICONS);
    assert GlyphsDisjoint(FILTER_ICONS, DOCUMENT_ICONS);
    assert GlyphsDisjoint(MAIL_ICONS, DOCUMENT_ICONS);
    assert GlyphsDisjoint(WATCHDOG_ICONS, DOCUMENT_ICONS);
    GlyphsDisjointConcat(LOGGING_ICONS, MODERATION_ICONS, DOCUMENT_ICONS);
    GlyphsDisjointConcat(LOGGING_ICONS + MODERATION_ICONS, FILTER_ICONS, DOCUMENT_ICONS);
    GlyphsDisjointConcat(LOGGING_ICONS + MODERATION_ICONS + FILTER_ICONS, MAIL_ICONS, DOCUMENT_ICONS);
    GlyphsDisjointConcat(LOGGING_ICONS + MODERATION_ICONS + FILTER_ICONS + MAIL_ICONS, WATCHDOG_ICONS, DOCUMENT_ICONS);
  }

  /** The document group repeats no glyph, neither its own nor one of an earlier group. */
  lemma DocumentGlyphsAreNew()
    ensures DistinctGlyphs(DOCUMENT_ICONS)
    ensures GlyphsDisjoint(LOGGING_ICONS + MODERATION_ICONS + FILTER_ICONS + MAIL_ICONS + WATCHDOG_ICONS + CONFIGURATION_ICONS + DEVELOPMENT_ICONS + SECURITY_ICONS, DOCUMENT_ICONS)
  {
    DocumentGlyphsAreNewToFirstGroups();
    assert GlyphsDisjoint(CONFIGURATION_ICONS, DOCUMENT_ICONS);
    assert GlyphsDisjoint(DEVELOPMENT_ICONS, DOCUMENT_ICONS);
    assert GlyphsDisjoint(SECURITY_ICONS, DOCUMENT_ICONS);
    GlyphsDisjointConcat(LOGGING_ICONS + MODERATION_ICONS + FILTER_ICONS + MAIL_ICONS + WATCHDOG_ICONS, CONFIGURATION_ICONS, DOCUMENT_ICONS);
    GlyphsDisjointConcat(LOGGING_ICONS + MODERATION_ICONS + FILTER_ICONS + MAIL_ICONS + WATCHDOG_ICONS + CONFIGURATION_ICONS, DEVELOPMENT_ICONS, DOCUMENT_ICONS);
    GlyphsDisjointConcat(LOGGING_ICONS + MODERATION_ICONS + FILTER_ICONS + MAIL_ICONS + WATCHDOG_ICONS + CONFIGURATION_ICONS + DEVELOPMENT_ICONS, SECURITY_ICONS, DOCUMENT_ICONS);
  }

  lemma MiscellaneousGlyphsAreNewToFirstGroups()
    ensures GlyphsDisjoint(LOGGING_ICONS + MODERATION_ICONS + FILTER_ICONS + MAIL_ICONS + WATCHDOG_ICONS, MISCELLANEOUS_ICONS)
  {
    assert GlyphsDisjoint(LOGGING_ICONS, MISCELLANEOUS_ICONS);
    assert GlyphsDisjoint(MODERATION_ICONS, MISCELLANEOUS_ICONS);
    assert GlyphsDisjoint(FILTER_ICONS, MISCELLANEOUS_ICONS);
    assert GlyphsDisjoint(MAIL_ICONS, MISCELLANEOUS_ICONS);
    assert GlyphsDisjoint(WATCHDOG_ICONS, MISCELLANEOUS_ICONS);
    GlyphsDisjointConcat(LOGGING_ICONS, MODERATION_ICONS, MISCELLANEOUS_ICONS);
    GlyphsDisjointConcat(LOGGING_ICONS + MODERATION_ICONS, FILTER_ICONS, MISCELLANEOUS_ICONS);
    GlyphsDisjointConcat(LOGGING_ICONS + MODERATION_ICONS + FILTER_ICONS, MAIL_ICONS, MISCELLANEOUS_ICONS);
    GlyphsDisjointConcat(LOGGING_ICONS + MODERATION_ICONS + FILTER_ICONS + MAIL_ICONS, WATCHDOG_ICONS, MISCELLANEOUS_ICONS);
  }

  lemma MiscellaneousGlyphsAreNewToDocuments()
    ensures GlyphsDisjoint(DOCUMENT_ICONS, MISCELLANEOUS_ICONS)
  {
    assert GlyphsDisjoint(DOCUMENT_ICONS[..7], MISCELLANEOUS_ICONS);
    assert GlyphsDisjoint(DOCUMENT_ICONS[7..], MISCELLANEOUS_ICONS);
    GlyphsDisjointConcat(DOCUMENT_ICONS[..7], DOCUMENT_ICONS[7..], MISCELLANEOUS_ICONS);
    assert DOCUMENT_ICONS[..7] + DOCUMENT_ICONS[7..] == DOCUMENT_ICONS;
  }

  /** The miscellaneous group repeats no glyph, neither its own nor one of an earlier group. */
  lemma MiscellaneousGlyphsAreNew()
    ensures DistinctGlyphs(MISCELLANEOUS_ICONS)
    ensures GlyphsDisjoint(LOGGING_ICONS + MODERATION_ICONS + FILTER_ICONS + MAIL_ICONS + WATCHDOG_ICONS + CONFIGURATION_ICONS + DEVELOPMENT_ICONS + SECURITY_ICONS + DOCUMENT_ICONS, MISCELLANEOUS_ICONS)
  {
    MiscellaneousGlyphsAreNewToFirstGroups();
    assert GlyphsDisjoint(CONFIGURATION_ICONS, MISCELLANEOUS_ICONS);
    assert GlyphsDisjoint(DEVELOPMENT_ICONS, MISCELLANEOUS_ICONS);
    assert GlyphsDisjoint(SECURITY_ICONS, MISCELLANEOUS_ICONS);
    MiscellaneousGlyphsAreNewToDocuments();
    GlyphsDisjointConcat(LOGGING_ICONS + MODERATION_ICONS + FILTER_ICONS + MAIL_ICONS + WATCHDOG_ICONS, CONFIGURATION_ICONS, MISCELLANEOUS_ICONS);
    GlyphsDisjointConcat(LOGGING_ICONS + MODERATION_ICONS + FILTER_ICONS + MAIL_ICONS + WATCHDOG_ICONS + CONFIGURATION_ICONS, DEVELOPMENT_ICONS, MISCELLANEOUS_ICONS);
    GlyphsDisjointConcat(LOGGING_ICONS + MODERATION_ICONS + FILTER_ICONS + MAIL_ICONS + WATCHDOG_ICONS + CONFIGURATION_ICONS + DEVELOPMENT_ICONS, SECURITY_ICONS, MISCELLANEOUS_ICONS);
    GlyphsDisjointConcat(LOGGING_ICONS + MODERATION_ICONS + FILTER_ICONS + MAIL_ICONS + WATCHDOG_ICONS + CONFIGURATION_ICONS + DEVELOPMENT_ICONS + SECURITY_ICONS, DOCUMENT_ICONS, MISCELLANEOUS_ICONS);
  }

  lemma GlyphsDisjointConcat(a: seq<Entry>, b: seq<Entry>, c: seq<Entry>)
    requires GlyphsDisjoint(a, c) && GlyphsDisjoint(b, c)
    ensures GlyphsDisjoint(a + b, c)
  {
    forall i, j | 0 <= i < |a + b| && 0 <= j < |c| ensures (a + b)[i].1 != c[j].1 {
      if i >= |a| {
        assert (a + b)[i] == b[i - |a|];
      }
    }
  }

  /** The literal writes 61 entries and no key twice. */
  lemma IconNamesDistinct()
    ensures |ICON_TABLE| == 61
    ensures DistinctNames(ICON_TABLE)
  {
    assert DistinctNames(LOGGING_ICONS);
    var written := LOGGING_ICONS;
    ModerationNamesAreNew();
    DistinctNamesConcat(written, MODERATION_ICONS);
    written := written + MODERATION_ICONS;
    FilterNamesAreNew();
    DistinctNamesConcat(written, FILTER_ICONS);
    written := written + FILTER_ICONS;
    MailNamesAreNew();
    DistinctNamesConcat(written, MAIL_ICONS);
    written := written + MAIL_ICONS;
    WatchdogNamesAreNew();
    DistinctNamesConcat(written, WATCHDOG_ICONS);
    written := written + WATCHDOG_ICONS;
    ConfigurationNamesAreNew();
    DistinctNamesConcat(written, CONFIGURATION_ICONS);
    written := written + CONFIGURATION_ICONS;
    DevelopmentNamesAreNew();
    DistinctNamesConcat(written, DEVELOPMENT_ICONS);
    written := written + DEVELOPMENT_ICONS;
    SecurityNamesAreNew();
    DistinctNamesConcat(written, SECURITY_ICONS);
    written := written + SECURITY_ICONS;
    DocumentNamesAreNew();
    DistinctNamesConcat(written, DOCUMENT_ICONS);
    written := written + DOCUMENT_ICONS;
    MiscellaneousNamesAreNew();
    DistinctNamesConcat(written, MISCELLANEOUS_ICONS);
    written := written + MISCELLANEOUS_ICONS;
  }

  /** No two entries share a glyph. */
  lemma IconGlyphsDistinct()
    ensures DistinctGlyphs(ICON_TABLE)
  {
    assert DistinctGlyphs(LOGGING_ICONS);
    var written := LOGGING_ICONS;
    ModerationGlyphsAreNew();
    DistinctGlyphsConcat(written, MODERATION_ICONS);
    written := written + MODERATION_ICONS;
    FilterGlyphsAreNew();
    DistinctGlyphsConcat(written, FILTER_ICONS);
    written := written + FILTER_ICONS;
    MailGlyphsAreNew();
    DistinctGlyphsConcat(written, MAIL_ICONS);
    written := written + MAIL_ICONS;
    WatchdogGlyphsAreNew();
    DistinctGlyphsConcat(written, WATCHDOG_ICONS);
    written := written + WATCHDOG_ICONS;
    ConfigurationGlyphsAreNew();
    DistinctGlyphsConcat(written, CONFIGURATION_ICONS);
    written := written + CONFIGURATION_ICONS;
    DevelopmentGlyphsAreNew();
    DistinctGlyphsConcat(written, DEVELOPMENT_ICONS);
    written := written + DEVELOPMENT_ICONS;
    SecurityGlyphsAreNew();
    DistinctGlyphsConcat(written, SECURITY_ICONS);
    written := written + SECURITY_ICONS;
    DocumentGlyphsAreNew();
    DistinctGlyphsConcat(written, DOCUMENT_ICONS);
    written := written + DOCUMENT_ICONS;
    MiscellaneousGlyphsAreNew();
    DistinctGlyphsConcat(written, MISCELLANEOUS_ICONS);
    written := written + MISCELLANEOUS_ICONS;
  }

  /** Every one of the 61 written entries is a key of `ICONS`. */
  lemma IconsSize()
    ensures |ICONS| == 61
  {
    IconNamesDistinct();
    DictOfSize(ICON_TABLE);
  }

  /** Every value of `ICONS` is a single character. */
  lemma IconGlyphsAreSingleCharacters()
    ensures forall name | name in ICONS :: |ICONS[name]| == 1
  {
    IconNamesDistinct();
    forall name | name in ICONS ensures |ICONS[name]| == 1 {
      DictOfKeys(ICON_TABLE, name);
      var i :| 0 <= i < |ICON_TABLE| && ICON_TABLE[i].0 == name;
      DictOfLookup(ICON_TABLE, i);
    }
  }

  /** Different icon names render as different glyphs. */
  lemma IconsInjective()
    ensures forall a, b | a in ICONS && b in ICONS && a != b :: ICONS[a] != ICONS[b]
  {
    IconNamesDistinct();
    IconGlyphsDistinct();
    forall a, b | a in ICONS && b in ICONS && a != b ensures ICONS[a] != ICONS[b] {
      DictOfKeys(ICON_TABLE, a);
      DictOfKeys(ICON_TABLE, b);
      var i :| 0 <= i < |ICON_TABLE| && ICON_TABLE[i].0 == a;
      var j :| 0 <= j < |ICON_TABLE| && ICON_TABLE[j].0 == b;
      DictOfLookup(ICON_TABLE, i);
      DictOfLookup(ICON_TABLE, j);
      assert ICON_TABLE[i].1 != ICON_TABLE[j].1 by {
        if i < j {} else { assert j < i; }
      }
      assert ICONS[a][0] != ICONS[b][0];
    }
  }

  /** `'person'` resolves, to BUST IN SILHOUETTE. */
  lemma PersonIconResolves()
    ensures "person" in ICONS && ICONS["person"] == "\U{1F464}"
  {
    IconNamesDistinct();
    assert ICON_TABLE[44] == ("person", '\U{1F464}');
    DictOfLookup(ICON_TABLE, 44);
  }

  /** No entry carries `name`. */
  ghost predicate Unnamed(entries: seq<Entry>, name: string) {
    forall i | 0 <= i < |entries| :: entries[i].0 != name
  }

  lemma UnnamedConcat(a: seq<Entry>, b: seq<Entry>, name: string)
    requires Unnamed(a, name) && Unnamed(b, name)
    ensures Unnamed(a + b, name)
  {
    forall i | 0 <= i < |a + b| ensures (a + b)[i].0 != name {
      if i >= |a| {
        assert (a + b)[i] == b[i - |a|];
      }
    }
  }

  /** No entry is named `'item_add'` or `'item_clear'`. */
  lemma ItemIconsMissing()
    ensures "item_add" !in ICONS && "item_clear" !in ICONS
  {
    var first := LOGGING_ICONS + MODERATION_ICONS + FILTER_ICONS + MAIL_ICONS + WATCHDOG_ICONS;
    var rest := CONFIGURATION_ICONS + DEVELOPMENT_ICONS + SECURITY_ICONS + DOCUMENT_ICONS
      + MISCELLANEOUS_ICONS;
    assert ICON_TABLE == first + rest;
    assert Unnamed(first, "item_add") && Unnamed(first, "item_clear");
    assert Unnamed(rest, "item_add") && Unnamed(rest, "item_clear");
    UnnamedConcat(first, rest, "item_add");
    UnnamedConcat(first, rest, "item_clear");
    DictOfKeys(ICON_TABLE, "item_add");
    DictOfKeys(ICON_TABLE, "item_clear");
  }
}
