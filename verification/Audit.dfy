/** The audit sanitizer: what a payload keeps, and that nothing under a sensitive key shows. */
module Audit {
  import opened Records

  datatype MapKey = TextKey(text: string) | OtherKey

  // The values a payload can be built from. Decimals, instants, dates and UUIDs carry their text.
  datatype Payload =
    | Nothing
    | Flag(b: bool)
    | Whole(n: int)
    | Text(s: string)
    | Float(text: string, finite: bool)
    | Decimal(text: string, finite: bool)
    | Moment(text: string, aware: bool)
    | Day(text: string)
    | Uuid(text: string)
    | Mapping(entries: seq<Entry>)
    | List(items: seq<Payload>)
    | Unsupported

  type Entry = (MapKey, Payload)

  const REDACTED := "[redacted]"

  const SENSITIVE: set<string> := {
    "access_token", "api_key", "authorization", "client_secret", "password", "provider_response",
    "raw_response", "refresh_token", "secret", "token"
  }

  function Underscored(s: string): string {
    if s == "" then "" else [if s[0] == '-' then '_' else s[0]] + Underscored(s[1..])
  }

  predicate EndsWith(s: string, suffix: string) { |suffix| <= |s| && s[|s| - |suffix|..] == suffix }

  // key.lower(), whatever alphabet the key is in: `lower` is any function.
  predicate Sensitive(key: string, lower: string -> string) {
    var normalized := Underscored(lower(key));
    normalized in SENSITIVE || EndsWith(normalized, "_api_key")
  }

  predicate IsSensitive(key: MapKey, lower: string -> string) { key.TextKey? && Sensitive(key.text, lower) }

  // None stands for the error that rejects the event.
  function Sanitize(v: Payload, lower: string -> string): Option<Payload>
    decreases v, 0
  {
    match v
    case Float(_, finite) => if finite then Some(v) else None
    case Decimal(text, finite) => if finite then Some(Text(text)) else None
    case Moment(text, aware) => if aware then Some(Text(text)) else None
    case Day(text) => Some(Text(text))
    case Uuid(text) => Some(Text(text))
    case Mapping(entries) =>
      var done := SanitizeEntries(entries, lower);
      if done.None? then None else Some(Mapping(done.value))
    case List(items) =>
      var done := SanitizeItems(items, lower);
      if done.None? then None else Some(List(done.value))
    case Unsupported => None
    case _ => Some(v)
  }

  function SanitizeEntry(e: Entry, lower: string -> string): Option<Entry>
    decreases e, 0
  {
    if e.0.OtherKey? then None
    else if IsSensitive(e.0, lower) then Some((e.0, Text(REDACTED)))
    else
      var done := Sanitize(e.1, lower);
      if done.None? then None else Some((e.0, done.value))
  }

  function SanitizeEntries(entries: seq<Entry>, lower: string -> string): Option<seq<Entry>>
    decreases entries, 1
  {
    if entries == [] then Some([])
    else
      var first, rest := SanitizeEntry(entries[0], lower), SanitizeEntries(entries[1..], lower);
      if first.None? || rest.None? then None else Some([first.value] + rest.value)
  }

  function SanitizeItems(items: seq<Payload>, lower: string -> string): Option<seq<Payload>>
    decreases items, 1
  {
    if items == [] then Some([])
    else
      var first, rest := Sanitize(items[0], lower), SanitizeItems(items[1..], lower);
      if first.None? || rest.None? then None else Some([first.value] + rest.value)
  }

  // ---- which keys are sensitive ----

  // Character by character, where a hyphen may stand for an underscore.
  predicate Spells(key: string, name: string) {
    |key| == |name| && forall i :: 0 <= i < |key| ==> key[i] == name[i] || (key[i] == '-' && name[i] == '_')
  }

  lemma {:induction false} UnderscoredIs(s: string)
    ensures |Underscored(s)| == |s| && forall i :: 0 <= i < |s| ==> Underscored(s)[i] == if s[i] == '-' then '_' else s[i]
  {
    if s != "" { UnderscoredIs(s[1..]); }
  }

  lemma UnderscoredSpells(key: string, name: string)
    requires '-' !in name
    ensures Underscored(key) == name <==> Spells(key, name)
  {
    UnderscoredIs(key);
    if Spells(key, name) {
      forall i | 0 <= i < |key| ensures Underscored(key)[i] == name[i] { assert name[i] in name; }
    }
  }

  // The ten names, in any mixture of case, hyphens and underscores, and everything that ends in
  // "_api_key".
  lemma SensitiveIff(key: string, lower: string -> string)
    ensures var k := lower(key);
            Sensitive(key, lower) <==>
            || Spells(k, "password") || Spells(k, "secret") || Spells(k, "token") || Spells(k, "authorization")
            || Spells(k, "access_token") || Spells(k, "refresh_token") || Spells(k, "api_key") || Spells(k, "client_secret")
            || Spells(k, "raw_response") || Spells(k, "provider_response")
            || (|k| >= 8 && Spells(k[|k| - 8..], "_api_key"))
  {
    var k := lower(key);
    UnderscoredSpells(k, "password");
    UnderscoredSpells(k, "secret");
    UnderscoredSpells(k, "token");
    UnderscoredSpells(k, "authorization");
    UnderscoredSpells(k, "access_token");
    UnderscoredSpells(k, "refresh_token");
    UnderscoredSpells(k, "api_key");
    UnderscoredSpells(k, "client_secret");
    UnderscoredSpells(k, "raw_response");
    UnderscoredSpells(k, "provider_response");
    SuffixSpells(k);
    hide Spells, Underscored;
  }

  lemma SuffixSpells(k: string)
    ensures EndsWith(Underscored(k), "_api_key") <==> |k| >= 8 && Spells(k[|k| - 8..], "_api_key")
  {
    hide Spells, Underscored;
    UnderscoredIs(k);
    EndsAt(Underscored(k));
    hide EndsWith;
    if |k| >= 8 {
      SuffixUnderscored(k, |k| - 8);
      UnderscoredSpells(k[|k| - 8..], "_api_key");
    }
  }

  lemma EndsAt(u: string)
    ensures EndsWith(u, "_api_key") <==> |u| >= 8 && u[|u| - 8..] == "_api_key"
  {}

  lemma SuffixUnderscored(k: string, n: nat)
    requires n <= |k| == |Underscored(k)|
    ensures Underscored(k)[n..] == Underscored(k[n..])
  {
    UnderscoredIs(k);
    UnderscoredIs(k[n..]);
    hide Underscored;
  }

  // What becomes of one value: numbers, flags and text stay, numbers and dates with a text of their own
  // become that text, and what has no place in JSON rejects the event.
  lemma LeafIs(v: Payload, lower: string -> string)
    requires !v.Mapping? && !v.List?
    ensures Sanitize(v, lower) ==
            if v.Unsupported? || (v.Float? && !v.finite) || (v.Decimal? && !v.finite) || (v.Moment? && !v.aware) then None
            else if v.Decimal? || v.Moment? || v.Day? || v.Uuid? then Some(Text(v.text)) else Some(v)
  {}

  // A mapping keeps its keys in order; what is under a sensitive key is replaced whatever it is, and
  // everything else is sanitized. It is rejected exactly for a key that is no text, or for a value
  // under another key that is.
  lemma MappingIs(entries: seq<Entry>, lower: string -> string)
    ensures Sanitize(Mapping(entries), lower).None? <==>
            exists i :: 0 <= i < |entries| && (entries[i].0.OtherKey? ||
                          (!Sensitive(entries[i].0.text, lower) && Sanitize(entries[i].1, lower).None?))
    ensures Sanitize(Mapping(entries), lower).Some? ==>
              var done := Sanitize(Mapping(entries), lower).value;
              && done.Mapping? && |done.entries| == |entries|
              && forall i :: 0 <= i < |entries| ==>
                   entries[i].0.TextKey? && done.entries[i].0 == entries[i].0
                   && if Sensitive(entries[i].0.text, lower) then done.entries[i].1 == Text("[redacted]")
                      else Sanitize(entries[i].1, lower) == Some(done.entries[i].1)
  {
    EntriesAre(entries, lower);
    forall i | 0 <= i < |entries|
      ensures SanitizeEntry(entries[i], lower) ==
              if entries[i].0.OtherKey? then None
              else if Sensitive(entries[i].0.text, lower) then Some((entries[i].0, Text("[redacted]")))
              else if Sanitize(entries[i].1, lower).None? then None
              else Some((entries[i].0, Sanitize(entries[i].1, lower).value))
    {}
    hide Sensitive;
  }

  // ---- entries and items one by one ----

  lemma {:induction false} EntriesAre(entries: seq<Entry>, lower: string -> string)
    ensures SanitizeEntries(entries, lower).Some? <==> forall i :: 0 <= i < |entries| ==> SanitizeEntry(entries[i], lower).Some?
    ensures SanitizeEntries(entries, lower).Some? ==>
      var done := SanitizeEntries(entries, lower).value;
      |done| == |entries| && forall i :: 0 <= i < |entries| ==> SanitizeEntry(entries[i], lower) == Some(done[i])
  {
    hide SanitizeEntry;
    if entries != [] { EntriesAre(entries[1..], lower); }
  }

  lemma {:induction false} ItemsAre(items: seq<Payload>, lower: string -> string)
    ensures SanitizeItems(items, lower).Some? <==> forall i :: 0 <= i < |items| ==> Sanitize(items[i], lower).Some?
    ensures SanitizeItems(items, lower).Some? ==>
      var done := SanitizeItems(items, lower).value;
      |done| == |items| && forall i :: 0 <= i < |items| ==> Sanitize(items[i], lower) == Some(done[i])
  {
    hide Sanitize;
    if items != [] { ItemsAre(items[1..], lower); }
  }

  lemma {:induction false} EntriesAgree(a: seq<Entry>, b: seq<Entry>, lower: string -> string)
    requires |a| == |b| && forall i :: 0 <= i < |a| ==> SanitizeEntry(a[i], lower) == SanitizeEntry(b[i], lower)
    ensures SanitizeEntries(a, lower) == SanitizeEntries(b, lower)
  {
    hide SanitizeEntry;
    if a != [] { EntriesAgree(a[1..], b[1..], lower); }
  }

  lemma {:induction false} ItemsAgree(a: seq<Payload>, b: seq<Payload>, lower: string -> string)
    requires |a| == |b| && forall i :: 0 <= i < |a| ==> Sanitize(a[i], lower) == Sanitize(b[i], lower)
    ensures SanitizeItems(a, lower) == SanitizeItems(b, lower)
  {
    hide Sanitize;
    if a != [] { ItemsAgree(a[1..], b[1..], lower); }
  }

  // ---- what shows ----

  // The same but for what is under sensitive keys, at any depth.
  predicate SameOutside(a: Payload, b: Payload, lower: string -> string) {
    match a
    case Mapping(entries) =>
      (b.Mapping? && |b.entries| == |entries|
       && forall i :: 0 <= i < |entries| ==>
            entries[i].0 == b.entries[i].0 && (IsSensitive(entries[i].0, lower) || SameOutside(entries[i].1, b.entries[i].1, lower)))
    case List(items) =>
      b.List? && |b.items| == |items| && forall i :: 0 <= i < |items| ==> SameOutside(items[i], b.items[i], lower)
    case _ => a == b
  }

  // Nothing about a secret shows: payloads that differ only under sensitive keys, at any depth, are
  // recorded alike, or both rejected.
  lemma {:induction false} SecretsDoNotShow(a: Payload, b: Payload, lower: string -> string)
    requires SameOutside(a, b, lower)
    ensures Sanitize(a, lower) == Sanitize(b, lower)
    decreases a
  {
    match a
    case Mapping(entries) =>
      forall i | 0 <= i < |entries| ensures SanitizeEntry(entries[i], lower) == SanitizeEntry(b.entries[i], lower) {
        if !IsSensitive(entries[i].0, lower) { SecretsDoNotShow(entries[i].1, b.entries[i].1, lower); }
      }
      EntriesAgree(entries, b.entries, lower);
    case List(items) =>
      forall i | 0 <= i < |items| ensures Sanitize(items[i], lower) == Sanitize(b.items[i], lower) { SecretsDoNotShow(items[i], b.items[i], lower); }
      ItemsAgree(items, b.items, lower);
    case _ =>
  }

  // Redacted under every sensitive key at every depth, and fit for JSON.
  predicate Sanitized(v: Payload, lower: string -> string) {
    match v
    case Mapping(entries) =>
      forall i :: 0 <= i < |entries| ==>
        entries[i].0.TextKey? && (if IsSensitive(entries[i].0, lower) then entries[i].1 == Text(REDACTED) else Sanitized(entries[i].1, lower))
    case List(items) => forall i :: 0 <= i < |items| ==> Sanitized(items[i], lower)
    case Float(_, finite) => finite
    case Nothing => true
    case Flag(_) => true
    case Whole(_) => true
    case Text(_) => true
    case _ => false
  }

  // Whatever is recorded is sanitized, and recording it again changes nothing.
  lemma {:induction false} SanitizeSanitizes(v: Payload, lower: string -> string)
    requires Sanitize(v, lower).Some?
    ensures Sanitized(Sanitize(v, lower).value, lower)
    decreases v
  {
    match v
    case Mapping(entries) =>
      EntriesAre(entries, lower);
      var done := SanitizeEntries(entries, lower).value;
      forall i | 0 <= i < |entries|
        ensures done[i].0.TextKey? && (if IsSensitive(done[i].0, lower) then done[i].1 == Text(REDACTED) else Sanitized(done[i].1, lower))
      {
        assert SanitizeEntry(entries[i], lower) == Some(done[i]);
        if !IsSensitive(entries[i].0, lower) { SanitizeSanitizes(entries[i].1, lower); }
      }
    case List(items) =>
      ItemsAre(items, lower);
      forall i | 0 <= i < |items| ensures Sanitized(SanitizeItems(items, lower).value[i], lower) { SanitizeSanitizes(items[i], lower); }
    case _ =>
  }

  // The sanitized payloads are exactly those that recording leaves as they are.
  lemma {:induction false} SanitizedIsFixed(v: Payload, lower: string -> string)
    ensures Sanitized(v, lower) <==> Sanitize(v, lower) == Some(v)
    decreases v
  {
    match v
    case Mapping(entries) =>
      EntriesAre(entries, lower);
      forall i | 0 <= i < |entries|
        ensures SanitizeEntry(entries[i], lower) == Some(entries[i]) <==>
          entries[i].0.TextKey? && (if IsSensitive(entries[i].0, lower) then entries[i].1 == Text(REDACTED) else Sanitized(entries[i].1, lower))
      {
        SanitizedIsFixed(entries[i].1, lower);
      }
      FixedEntries(entries, lower);
    case List(items) =>
      ItemsAre(items, lower);
      forall i | 0 <= i < |items| ensures Sanitize(items[i], lower) == Some(items[i]) <==> Sanitized(items[i], lower) { SanitizedIsFixed(items[i], lower); }
      FixedItems(items, lower);
    case _ =>
  }

  lemma FixedEntries(entries: seq<Entry>, lower: string -> string)
    ensures SanitizeEntries(entries, lower) == Some(entries) <==> forall i :: 0 <= i < |entries| ==> SanitizeEntry(entries[i], lower) == Some(entries[i])
  {
    hide SanitizeEntry;
    EntriesAre(entries, lower);
    if forall i :: 0 <= i < |entries| ==> SanitizeEntry(entries[i], lower) == Some(entries[i]) {
      assert SanitizeEntries(entries, lower).value == entries;
    }
  }

  lemma FixedItems(items: seq<Payload>, lower: string -> string)
    ensures SanitizeItems(items, lower) == Some(items) <==> forall i :: 0 <= i < |items| ==> Sanitize(items[i], lower) == Some(items[i])
  {
    hide Sanitize;
    ItemsAre(items, lower);
    if forall i :: 0 <= i < |items| ==> Sanitize(items[i], lower) == Some(items[i]) {
      assert SanitizeItems(items, lower).value == items;
    }
  }
}
