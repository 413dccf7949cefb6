/**
 * The defaults merge of AIkoINIhandler.py and of its older version
 * AikoINIhandler.py: a configuration is a map from section to a map from
 * option to value; every section of a fixed defaults table is made present,
 * and in it every option of the table that is missing gets its default,
 * while nothing already present is changed or removed. With no file, the
 * result is the defaults table itself.
 *
 * Reading and writing the file, and ConfigParser's own rules (option-name
 * case folding, the DEFAULT section, options without a value), are outside
 * the model: the file arrives as an optional map.
 */
module IniHandler {
  import opened Wrappers

  type Options = map<string, string>
  type Config = map<string, Options>
  /** A section name with its `(option, default)` pairs, in order. */
  type Section = (string, seq<(string, string)>)

  // ------------------------------------------------------------------------
  // The specification
  // ------------------------------------------------------------------------

  /** The first components of a sequence of named entries. */
  function Names<X>(entries: seq<(string, X)>): set<string>
  {
    set i | 0 <= i < |entries| :: entries[i].0
  }

  /** No name is listed twice. */
  predicate Distinct<X>(entries: seq<(string, X)>)
  {
    forall i, j :: 0 <= i < j < |entries| ==> entries[i].0 != entries[j].0
  }

  function SectionNames(table: seq<Section>): set<string>
  {
    Names(table)
  }

  function OptionNames(defaults: seq<(string, string)>): set<string>
  {
    Names(defaults)
  }

  /** Each section is listed once, and each option once within its section. */
  predicate WellFormed(table: seq<Section>)
  {
    Distinct(table) && forall i :: 0 <= i < |table| ==> Distinct(table[i].1)
  }

  /** The existing-section branch: an option already present is left alone, a missing one is set. */
  function Fill(options: Options, defaults: seq<(string, string)>): Options
  {
    if defaults == [] then options
    else
      var before := Fill(options, defaults[..|defaults| - 1]);
      var (key, value) := defaults[|defaults| - 1];
      if key in before then before else before[key := value]
  }

  /** The new-section branch: every option is set. */
  function SetAll(options: Options, defaults: seq<(string, string)>): Options
  {
    if defaults == [] then options
    else
      var (key, value) := defaults[|defaults| - 1];
      SetAll(options, defaults[..|defaults| - 1])[key := value]
  }

  function MergeSection(config: Config, section: Section): Config
  {
    if section.0 in config then config[section.0 := Fill(config[section.0], section.1)]
    else config[section.0 := SetAll(map[], section.1)]
  }

  /** The sections of the table handled in order against an existing configuration. */
  function Merged(config: Config, table: seq<Section>): Config
  {
    if table == [] then config
    else MergeSection(Merged(config, table[..|table| - 1]), table[|table| - 1])
  }

  /** The no-file branch: every section added with all its defaults. */
  function Fresh(table: seq<Section>): Config
  {
    if table == [] then map[]
    else Fresh(table[..|table| - 1])[table[|table| - 1].0 := SetAll(map[], table[|table| - 1].1)]
  }

  // ------------------------------------------------------------------------
  // What the specification means
  // ------------------------------------------------------------------------

  /** Dropping the last entry: its name is the only one lost, and distinctness carries over. */
  lemma NamesOfPrefix<X>(entries: seq<(string, X)>)
    requires entries != []
    ensures Names(entries) == Names(entries[..|entries| - 1]) + {entries[|entries| - 1].0}
    ensures Distinct(entries) ==>
              Distinct(entries[..|entries| - 1]) && entries[|entries| - 1].0 !in Names(entries[..|entries| - 1])
  {
    var n := |entries| - 1;
    var prefix := entries[..n];
    forall k | k in Names(entries) ensures k in Names(prefix) + {entries[n].0} {
      var i :| 0 <= i < |entries| && entries[i].0 == k;
      if i < n {
        assert prefix[i] == entries[i];
      }
    }
    forall k | k in Names(prefix) ensures k in Names(entries) {
      var i :| 0 <= i < |prefix| && prefix[i].0 == k;
      assert entries[i] == prefix[i];
    }
    if Distinct(entries) {
      forall k | k in Names(prefix) ensures k != entries[n].0 {
        var i :| 0 <= i < |prefix| && prefix[i].0 == k;
        assert entries[i] == prefix[i];
      }
    }
  }

  lemma WellFormedPrefix(table: seq<Section>)
    requires table != [] && WellFormed(table)
    ensures WellFormed(table[..|table| - 1])
    ensures table[|table| - 1].0 !in SectionNames(table[..|table| - 1])
    ensures SectionNames(table) == SectionNames(table[..|table| - 1]) + {table[|table| - 1].0}
  {
    NamesOfPrefix(table);
    var prefix := table[..|table| - 1];
    forall i | 0 <= i < |prefix| ensures Distinct(prefix[i].1) {
      assert prefix[i] == table[i];
    }
  }

  lemma {:induction false} FillMeaning(options: Options, defaults: seq<(string, string)>)
    requires Distinct(defaults)
    ensures Fill(options, defaults).Keys == options.Keys + OptionNames(defaults)
    ensures forall k :: k in options ==> Fill(options, defaults)[k] == options[k]
    ensures forall j :: 0 <= j < |defaults| && defaults[j].0 !in options ==>
              Fill(options, defaults)[defaults[j].0] == defaults[j].1
  {
    if defaults != [] {
      var n := |defaults| - 1;
      var prefix := defaults[..n];
      NamesOfPrefix(defaults);
      FillMeaning(options, prefix);
      var before := Fill(options, prefix);
      var key := defaults[n].0;
      assert key in before <==> key in options;
      assert Fill(options, defaults) == if key in before then before else before[key := defaults[n].1];
      forall j | 0 <= j < n && defaults[j].0 !in options
        ensures Fill(options, defaults)[defaults[j].0] == defaults[j].1
      {
        assert prefix[j] == defaults[j];
        assert defaults[j].0 != key;
      }
    }
  }

  lemma {:induction false} SetAllMeaning(defaults: seq<(string, string)>)
    requires Distinct(defaults)
    ensures SetAll(map[], defaults).Keys == OptionNames(defaults)
    ensures forall j :: 0 <= j < |defaults| ==> SetAll(map[], defaults)[defaults[j].0] == defaults[j].1
  {
    if defaults != [] {
      var n := |defaults| - 1;
      var prefix := defaults[..n];
      NamesOfPrefix(defaults);
      SetAllMeaning(prefix);
      forall j | 0 <= j < n
        ensures SetAll(map[], defaults)[defaults[j].0] == defaults[j].1
      {
        assert prefix[j] == defaults[j];
      }
    }
  }

  /** What a listed section becomes. */
  function MergedOptions(config: Config, section: Section): Options
  {
    if section.0 in config then Fill(config[section.0], section.1) else SetAll(map[], section.1)
  }

  /** The sections after the merge: those of the configuration and those of the table. */
  lemma {:induction false} MergedKeys(config: Config, table: seq<Section>)
    ensures Merged(config, table).Keys == config.Keys + SectionNames(table)
  {
    if table != [] {
      var n := |table| - 1;
      NamesOfPrefix(table);
      MergedKeys(config, table[..n]);
    }
  }

  /** A section the table does not list comes through the merge unchanged. */
  lemma {:induction false} MergedUnlisted(config: Config, table: seq<Section>)
    ensures forall s :: s in config && s !in SectionNames(table) ==>
              s in Merged(config, table) && Merged(config, table)[s] == config[s]
  {
    if table != [] {
      var n := |table| - 1;
      var prefix := table[..n];
      NamesOfPrefix(table);
      MergedUnlisted(config, prefix);
      forall s | s in config && s !in SectionNames(table)
        ensures s in Merged(config, table) && Merged(config, table)[s] == config[s]
      {
        assert s != table[n].0 && s !in SectionNames(prefix);
      }
    }
  }

  /** A section the table lists becomes its filled or newly created options. */
  lemma {:induction false} MergedListed(config: Config, table: seq<Section>)
    requires WellFormed(table)
    ensures forall i :: 0 <= i < |table| ==>
              table[i].0 in Merged(config, table) && Merged(config, table)[table[i].0] == MergedOptions(config, table[i])
  {
    if table != [] {
      var n := |table| - 1;
      var prefix := table[..n];
      WellFormedPrefix(table);
      MergedListed(config, prefix);
      MergedKeys(config, prefix);
      MergedUnlisted(config, prefix);
      var before := Merged(config, prefix);
      var name := table[n].0;
      assert name in before <==> name in config;
      assert name in config ==> before[name] == config[name];
      assert Merged(config, table) == before[name := MergedOptions(config, table[n])];
      forall i | 0 <= i < n
        ensures table[i].0 in Merged(config, table) && Merged(config, table)[table[i].0] == MergedOptions(config, table[i])
      {
        assert prefix[i] == table[i];
        assert table[i].0 != name;
      }
    }
  }

  /**
   * The merge handles each section on its own: a listed section becomes its
   * filled (or newly created) options, and every other section is untouched.
   */
  lemma MergedBySection(config: Config, table: seq<Section>)
    requires WellFormed(table)
    ensures Merged(config, table).Keys == config.Keys + SectionNames(table)
    ensures forall s :: s in config && s !in SectionNames(table) ==> Merged(config, table)[s] == config[s]
    ensures forall i :: 0 <= i < |table| ==> Merged(config, table)[table[i].0] == MergedOptions(config, table[i])
  {
    MergedKeys(config, table);
    MergedUnlisted(config, table);
    MergedListed(config, table);
  }

  /** Afterwards every listed section and every default option of it is present. */
  lemma DefaultsPresent(config: Config, table: seq<Section>)
    requires WellFormed(table)
    ensures forall i, j :: 0 <= i < |table| && 0 <= j < |table[i].1| ==>
              table[i].0 in Merged(config, table) && table[i].1[j].0 in Merged(config, table)[table[i].0]
  {
    MergedBySection(config, table);
    forall i, j | 0 <= i < |table| && 0 <= j < |table[i].1|
      ensures table[i].0 in Merged(config, table) && table[i].1[j].0 in Merged(config, table)[table[i].0]
    {
      assert table[i].0 in SectionNames(table);
      assert table[i].1[j].0 in OptionNames(table[i].1);
      if table[i].0 in config {
        FillMeaning(config[table[i].0], table[i].1);
      } else {
        SetAllMeaning(table[i].1);
      }
    }
  }

  /**
   * Nothing is removed or overwritten: every section and option of the
   * existing configuration survives with its value, listed or not.
   */
  lemma ExistingValuesKept(config: Config, table: seq<Section>)
    requires WellFormed(table)
    ensures forall s, k :: s in config && k in config[s] ==>
              s in Merged(config, table) && k in Merged(config, table)[s]
              && Merged(config, table)[s][k] == config[s][k]
  {
    MergedBySection(config, table);
    forall s, k | s in config && k in config[s]
      ensures s in Merged(config, table) && k in Merged(config, table)[s]
              && Merged(config, table)[s][k] == config[s][k]
    {
      if s in SectionNames(table) {
        var i :| 0 <= i < |table| && table[i].0 == s;
        FillMeaning(config[s], table[i].1);
      }
    }
  }

  /** The configuration has no such option, because the section or the option is absent. */
  predicate Missing(config: Config, section: string, option: string)
  {
    section !in config || option !in config[section]
  }

  /** A missing option, in an existing or a new section, gets its default value. */
  lemma MissingOptionsFilled(config: Config, table: seq<Section>)
    requires WellFormed(table)
    ensures forall i, j :: 0 <= i < |table| && 0 <= j < |table[i].1| && Missing(config, table[i].0, table[i].1[j].0) ==>
              (table[i].0 in Merged(config, table) && table[i].1[j].0 in Merged(config, table)[table[i].0]
               && Merged(config, table)[table[i].0][table[i].1[j].0] == table[i].1[j].1)
  {
    MergedBySection(config, table);
    DefaultsPresent(config, table);
    forall i, j | 0 <= i < |table| && 0 <= j < |table[i].1| && Missing(config, table[i].0, table[i].1[j].0)
      ensures table[i].0 in Merged(config, table) && table[i].1[j].0 in Merged(config, table)[table[i].0]
              && Merged(config, table)[table[i].0][table[i].1[j].0] == table[i].1[j].1
    {
      if table[i].0 in config {
        FillMeaning(config[table[i].0], table[i].1);
      } else {
        SetAllMeaning(table[i].1);
      }
    }
  }

  /** Filling a section that already holds every default changes nothing. */
  lemma FillComplete(options: Options, defaults: seq<(string, string)>)
    requires Distinct(defaults) && OptionNames(defaults) <= options.Keys
    ensures Fill(options, defaults) == options
  {
    FillMeaning(options, defaults);
  }

  /** Merging a second time changes nothing. */
  lemma MergeIdempotent(config: Config, table: seq<Section>)
    requires WellFormed(table)
    ensures Merged(Merged(config, table), table) == Merged(config, table)
  {
    var once := Merged(config, table);
    MergedBySection(config, table);
    MergedBySection(once, table);
    DefaultsPresent(config, table);
    forall s | s in once
      ensures Merged(once, table)[s] == once[s]
    {
      if s in SectionNames(table) {
        var i :| 0 <= i < |table| && table[i].0 == s;
        forall k | k in OptionNames(table[i].1) ensures k in once[s] {
          var j :| 0 <= j < |table[i].1| && table[i].1[j].0 == k;
        }
        FillComplete(once[s], table[i].1);
      }
    }
  }

  /** With no file, the result is the defaults table: merging into an empty configuration. */
  lemma {:induction false} FreshIsMergedIntoNothing(table: seq<Section>)
    requires WellFormed(table)
    ensures Fresh(table) == Merged(map[], table)
  {
    if table != [] {
      var prefix := table[..|table| - 1];
      WellFormedPrefix(table);
      FreshIsMergedIntoNothing(prefix);
      MergedBySection(map[], prefix);
    }
  }

  /** With no file, exactly the listed sections exist and each holds exactly its defaults. */
  lemma FreshIsTheTable(table: seq<Section>)
    requires WellFormed(table)
    ensures Fresh(table).Keys == SectionNames(table)
    ensures forall i :: 0 <= i < |table| ==> Fresh(table)[table[i].0].Keys == OptionNames(table[i].1)
    ensures forall i, j :: 0 <= i < |table| && 0 <= j < |table[i].1| ==>
              table[i].1[j].0 in Fresh(table)[table[i].0]
              && Fresh(table)[table[i].0][table[i].1[j].0] == table[i].1[j].1
  {
    FreshIsMergedIntoNothing(table);
    MergedBySection(map[], table);
    forall i | 0 <= i < |table|
      ensures Fresh(table)[table[i].0].Keys == OptionNames(table[i].1)
      ensures forall j :: 0 <= j < |table[i].1| ==>
                table[i].1[j].0 in Fresh(table)[table[i].0]
                && Fresh(table)[table[i].0][table[i].1[j].0] == table[i].1[j].1
    {
      SetAllMeaning(table[i].1);
      forall j | 0 <= j < |table[i].1| ensures table[i].1[j].0 in OptionNames(table[i].1) { }
    }
  }

  // ------------------------------------------------------------------------
  // The algorithm
  // ------------------------------------------------------------------------

  /**
   * `handle_ini` over a defaults table: the nested loops over sections and
   * their options, against the file's configuration or, when there is no
   * file, an empty one built section by section.
   */
  method MergeDefaults(file: Option<Config>, table: seq<Section>) returns (config: Config)
    ensures file.Some? ==> config == Merged(file.value, table)
    ensures file.None? ==> config == Fresh(table)
  {
    if file.Some? {
      config := file.value;
      var i := 0;
      while i < |table|
        invariant 0 <= i <= |table|
        invariant config == Merged(file.value, table[..i])
      {
        var (section, defaults) := table[i];
        assert table[..i + 1][..i] == table[..i];
        if section in config {
          var options := config[section];
          var j := 0;
          while j < |defaults|
            invariant 0 <= j <= |defaults|
            invariant options == Fill(config[section], defaults[..j])
          {
            var (key, value) := defaults[j];
            assert defaults[..j + 1][..j] == defaults[..j];
            if key !in options {
              options := options[key := value];
            }
            j := j + 1;
          }
          assert defaults[..j] == defaults;
          config := config[section := options];
        } else {
          var options: Options := map[];
          var j := 0;
          while j < |defaults|
            invariant 0 <= j <= |defaults|
            invariant options == SetAll(map[], defaults[..j])
          {
            var (key, value) := defaults[j];
            assert defaults[..j + 1][..j] == defaults[..j];
            options := options[key := value];
            j := j + 1;
          }
          assert defaults[..j] == defaults;
          config := config[section := options];
        }
        i := i + 1;
      }
      assert table[..i] == table;
    } else {
      config := map[];
      var i := 0;
      while i < |table|
        invariant 0 <= i <= |table|
        invariant config == Fresh(table[..i])
      {
        var (section, defaults) := table[i];
        assert table[..i + 1][..i] == table[..i];
        var options: Options := map[];
        var j := 0;
        while j < |defaults|
          invariant 0 <= j <= |defaults|
          invariant options == SetAll(map[], defaults[..j])
        {
          var (key, value) := defaults[j];
          assert defaults[..j + 1][..j] == defaults[..j];
          options := options[key := value];
          j := j + 1;
        }
        assert defaults[..j] == defaults;
        config := config[section := options];
        i := i + 1;
      }
      assert table[..i] == table;
    }
  }

  // ------------------------------------------------------------------------
  // The two versions' tables
  // ------------------------------------------------------------------------

  const GeneralDefaults: seq<(string, string)> := [
    ("username", "Ulaidh"), ("breaker_phrase", "code red"), ("dynamic_scenarios", "True"),
    ("completion_timeout", "10"), ("max_side_prompts", "5"), ("model", "gpt-3.5-turbo")]
  const VoiceDefaults: seq<(string, string)> := [
    ("azure_voice", "en-US-SaraNeural"), ("azure_region", "brazilsouth"), ("audio_device", "Cable Input"),
    ("mic_device", "Cable-B Output"), ("default_style", "neutral"), ("default_rate", "1.0"), ("default_pitch", "0.0")]
  const FrameOfMindDefaults: seq<(string, string)> := [
    ("irritability_threshold", "300"), ("mood_change_threshold", "600")]
  const SpontaneousTalkingDefaults: seq<(string, string)> := [("min_time", "180"), ("max_time", "540")]
  const LivestreamDefaults: seq<(string, string)> := [
    ("platform", "Twitch"), ("liveid", ""), ("toggle_listening", "Page Down"), ("side_prompt", "Page Up"),
    ("voice_message_expiration_time", "10.0"), ("chat_min_cooldown", "2"), ("chat_max_cooldown", "6")]
  const RemoteSidePromptingDefaults: seq<(string, string)> := [("port", "5004"), ("server_ip", "")]

  /** The sections and defaults of AIkoINIhandler.py. */
  const CurrentTable: seq<Section> := [
    ("GENERAL", GeneralDefaults),
    ("VOICE", VoiceDefaults),
    ("FRAME_OF_MIND", FrameOfMindDefaults),
    ("SPONTANEOUS_TALKING", SpontaneousTalkingDefaults),
    ("LIVESTREAM", LivestreamDefaults),
    ("REMOTE_SIDE_PROMPTING", RemoteSidePromptingDefaults)
  ]

  const LegacyGeneralDefaults: seq<(string, string)> := [
    ("username", "Ulaidh"), ("breaker_phrase", "code red"), ("context_slots", "5"), ("dynamic_scenarios", "True")]
  const SpeechInterfaceDefaults: seq<(string, string)> := [
    ("audio_device", "2"), ("tts_method", "gtts"), ("elevenlabs_voice", "asuka-langley-yuko-miyamura"),
    ("azure_voice", "en-US-Sara-Neural"), ("azure_region", "brazilsouth"), ("pitch_shift", "2.0")]
  const SummarizationDefaults: seq<(string, string)> := [
    ("summary_instruction", "Summarize this shortly without removing core info:"), ("context_character_limit", "375")]
  const SilenceBreakerDefaults: seq<(string, string)> := [
    ("min_silence_breaker_time", "9"), ("max_silence_breaker_time", "90")]
  const LegacyLivestreamDefaults: seq<(string, string)> := [
    ("liveid", ""), ("talking_chance", "1"), ("ptt_hotkey", "num minus"), ("sp_hotkey", "num plus")]

  /** The sections and defaults of the older AikoINIhandler.py. */
  const LegacyTable: seq<Section> := [
    ("GENERAL", LegacyGeneralDefaults),
    ("SPEECH_INTERFACE", SpeechInterfaceDefaults),
    ("SUMMARIZATION", SummarizationDefaults),
    ("SILENCE_BREAKER", SilenceBreakerDefaults),
    ("LIVESTREAM", LegacyLivestreamDefaults)
  ]

  /** The current table lists each section once and each option once per section. */
  lemma CurrentTableWellFormed()
    ensures WellFormed(CurrentTable)
  {
    assert Distinct(GeneralDefaults);
    assert Distinct(VoiceDefaults);
    assert Distinct(LivestreamDefaults);
    assert forall i :: 0 <= i < |CurrentTable| ==> Distinct(CurrentTable[i].1);
  }

  /** So does the older one. */
  lemma LegacyTableWellFormed()
    ensures WellFormed(LegacyTable)
  {
    assert Distinct(LegacyGeneralDefaults);
    assert Distinct(SpeechInterfaceDefaults);
    assert Distinct(LegacyLivestreamDefaults);
    assert forall i :: 0 <= i < |LegacyTable| ==> Distinct(LegacyTable[i].1);
  }

  /** AIkoINIhandler.py's `handle_ini`, the file given as an optional configuration. */
  method HandleIni(file: Option<Config>) returns (config: Config)
    ensures file.Some? ==> config == Merged(file.value, CurrentTable)
    ensures file.None? ==> config == Fresh(CurrentTable)
    ensures config.Keys >= SectionNames(CurrentTable)
  {
    config := MergeDefaults(file, CurrentTable);
    CurrentTableWellFormed();
    if file.Some? {
      MergedBySection(file.value, CurrentTable);
    } else {
      FreshIsTheTable(CurrentTable);
    }
  }

  /** AikoINIhandler.py's `handle_ini`, over the older sections. */
  method HandleIniLegacy(file: Option<Config>) returns (config: Config)
    ensures file.Some? ==> config == Merged(file.value, LegacyTable)
    ensures file.None? ==> config == Fresh(LegacyTable)
    ensures config.Keys >= SectionNames(LegacyTable)
  {
    config := MergeDefaults(file, LegacyTable);
    LegacyTableWellFormed();
    if file.Some? {
      MergedBySection(file.value, LegacyTable);
    } else {
      FreshIsTheTable(LegacyTable);
    }
  }
}
