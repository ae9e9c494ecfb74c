/** The model catalog: its index, the fuzzy search over it, and the seeding of
    the key-value bucket the workers read. */
module Catalog {
  import opened Wrappers
  import opened Text

  datatype YamlEntry = YamlEntry(key: string, provider: string, modelId: string, displayName: string)

  datatype Provider = ProviderAnthropic | ProviderOpenAi | ProviderGoogle | ProviderOpenRouter | ProviderFake

  datatype Entry = Entry(key: string, provider: Provider, modelId: string, displayName: string)

  /** Go's rune-wise case mappings, whatever they are. */
  datatype Casing = Casing(lower: char -> char, upper: char -> char)

  function Mapped(s: string, f: char -> char): (t: string)
    ensures |t| == |s| && forall i :: 0 <= i < |s| ==> t[i] == f(s[i])
  {
    seq(|s|, i requires 0 <= i < |s| => f(s[i]))
  }

  // ---- loading ----

  const PROVIDERS := map[
    "PROVIDER_ANTHROPIC" := ProviderAnthropic,
    "PROVIDER_OPENAI" := ProviderOpenAi,
    "PROVIDER_GOOGLE" := ProviderGoogle,
    "PROVIDER_OPENROUTER" := ProviderOpenRouter,
    "PROVIDER_FAKE" := ProviderFake]

  datatype LoadError =
    | NoModels
    | MissingField(index: nat)
    | InvalidKey(index: nat, position: nat)
    | UnknownProvider(index: nat)
    | DuplicateKey(index: nat)

  predicate KeyRune(c: char) {
    || 'a' <= c <= 'z' || 'A' <= c <= 'Z' || '0' <= c <= '9'
    || c in {'-', '/', '_', '=', '.'}
  }

  /** The 1-based position of the first character outside the key charset. */
  method FirstInvalidKeyRune(key: string) returns (position: Option<nat>)
    ensures position.None? <==> forall c :: c in key ==> KeyRune(c)
    ensures position.Some? ==>
              && 1 <= position.value <= |key| && !KeyRune(key[position.value - 1])
              && forall i :: 0 <= i < position.value - 1 ==> KeyRune(key[i])
  {
    for i := 0 to |key|
      invariant forall j :: 0 <= j < i ==> KeyRune(key[j])
    {
      if !KeyRune(key[i]) { return Some(i + 1); }
    }
    position := None;
  }

  function ProviderOf(m: YamlEntry, casing: Casing): Option<Provider> {
    var name := "PROVIDER_" + Mapped(m.provider, casing.upper);
    if name in PROVIDERS then Some(PROVIDERS[name]) else None
  }

  predicate Acceptable(m: YamlEntry, casing: Casing) {
    && m.key != "" && m.modelId != "" && m.displayName != ""
    && (forall c :: c in m.key ==> KeyRune(c))
    && ProviderOf(m, casing).Some?
  }

  function EntryOf(m: YamlEntry, casing: Casing): Entry
    requires Acceptable(m, casing)
  {
    Entry(m.key, ProviderOf(m, casing).value, m.modelId, m.displayName)
  }

  predicate Distinct(models: seq<YamlEntry>) {
    forall i, j :: 0 <= i < j < |models| ==> models[i].key != models[j].key
  }

  predicate Loads(models: seq<YamlEntry>, casing: Casing) {
    models != [] && Distinct(models) && forall m :: m in models ==> Acceptable(m, casing)
  }

  /** The entry list viewed as a map. */
  function Index(entries: seq<Entry>): map<string, Entry> {
    if entries == [] then map[]
    else
      var last := entries[|entries| - 1];
      Index(entries[..|entries| - 1])[last.key := last]
  }

  predicate Offers(entries: seq<Entry>, key: string) {
    exists i :: 0 <= i < |entries| && entries[i].key == key
  }

  lemma {:induction false} IndexOffers(entries: seq<Entry>, key: string)
    ensures key in Index(entries) <==> Offers(entries, key)
    ensures key in Index(entries) ==> Index(entries)[key].key == key
  {
    if entries != [] {
      var n := |entries| - 1;
      IndexOffers(entries[..n], key);
      if Offers(entries, key) && entries[n].key != key {
        var i :| 0 <= i < |entries| && entries[i].key == key;
        assert entries[..n][i].key == key;
      }
    }
  }

  predicate DistinctKeys(entries: seq<Entry>) {
    forall i, j :: 0 <= i < j < |entries| ==> entries[i].key != entries[j].key
  }

  lemma {:induction false} IndexFinds(entries: seq<Entry>, i: nat)
    requires DistinctKeys(entries) && i < |entries|
    ensures entries[i].key in Index(entries) && Index(entries)[entries[i].key] == entries[i]
  {
    var n := |entries| - 1;
    if i < n {
      IndexFinds(entries[..n], i);
      assert entries[i].key != entries[n].key;
    }
  }

  /** The list holds one entry a model, in file order. */
  ghost predicate Mirrors(entries: seq<Entry>, models: seq<YamlEntry>, casing: Casing) {
    |entries| == |models| && forall i :: 0 <= i < |models| ==>
      Acceptable(models[i], casing) && entries[i] == EntryOf(models[i], casing)
  }

  lemma MirrorsExtend(entries: seq<Entry>, models: seq<YamlEntry>, i: nat, casing: Casing)
    requires i < |models| && Mirrors(entries, models[..i], casing) && Acceptable(models[i], casing)
    ensures Mirrors(entries + [EntryOf(models[i], casing)], models[..i + 1], casing)
  {
    assert models[..i + 1] == models[..i] + [models[i]];
  }

  lemma MirroredLoads(entries: seq<Entry>, models: seq<YamlEntry>, casing: Casing)
    requires models != [] && Mirrors(entries, models, casing) && DistinctKeys(entries)
    ensures Loads(models, casing)
  {
    assert forall i, j :: 0 <= i < j < |models| ==> entries[i].key != entries[j].key;
    assert forall i :: 0 <= i < |models| ==> entries[i].key == models[i].key;
  }

  /** A model that is not acceptable, or whose key an earlier one took, spoils the file. */
  lemma CheckedKeys(entries: seq<Entry>, models: seq<YamlEntry>, i: nat, casing: Casing)
    requires i < |models| && Mirrors(entries, models[..i], casing)
    requires !Acceptable(models[i], casing) || models[i].key in Index(entries)
    ensures !Loads(models, casing)
  {
    assert models[i] in models;
    if models[i].key in Index(entries) {
      IndexOffers(entries, models[i].key);
      var j :| 0 <= j < |entries| && entries[j].key == models[i].key;
      assert models[..i][j] == models[j];
    }
  }

  /** What each refusal says of the entry it refuses; earlier checks passed. */
  predicate Blames(e: LoadError, m: YamlEntry, taken: set<string>, casing: Casing) {
    var complete := m.key != "" && m.modelId != "" && m.displayName != "";
    var spelled := forall c :: c in m.key ==> KeyRune(c);
    match e
    case NoModels => false
    case MissingField(_) => !complete
    case InvalidKey(_, position) =>
      && complete && 1 <= position <= |m.key| && !KeyRune(m.key[position - 1])
      && forall i :: 0 <= i < position - 1 ==> KeyRune(m.key[i])
    case UnknownProvider(_) => complete && spelled && ProviderOf(m, casing).None?
    case DuplicateKey(_) => Acceptable(m, casing) && m.key in taken
  }

  /** The charset by code point: hyphen to nine, the letters, `=` and `_`. */
  lemma KeyCharset(c: char)
    ensures var n := c as int;
            KeyRune(c) <==> 45 <= n <= 57 || 65 <= n <= 90 || 97 <= n <= 122 || n == 61 || n == 95
  {
  }

  function ProviderName(p: Provider): string {
    match p
    case ProviderAnthropic => "PROVIDER_ANTHROPIC"
    case ProviderOpenAi => "PROVIDER_OPENAI"
    case ProviderGoogle => "PROVIDER_GOOGLE"
    case ProviderOpenRouter => "PROVIDER_OPENROUTER"
    case ProviderFake => "PROVIDER_FAKE"
  }

  /** A provider is known exactly when its upper-cased name is one of the five. */
  lemma ProviderIsNamed(m: YamlEntry, casing: Casing)
    ensures ProviderOf(m, casing).Some? ==>
              ProviderName(ProviderOf(m, casing).value) == "PROVIDER_" + Mapped(m.provider, casing.upper)
    ensures forall p :: ProviderName(p) == "PROVIDER_" + Mapped(m.provider, casing.upper) ==>
              ProviderOf(m, casing) == Some(p)
  {
  }

  /** What a loaded entry has of its model: every field, and the provider by name. */
  predicate Renders(e: Entry, m: YamlEntry, casing: Casing) {
    && e.key == m.key && e.modelId == m.modelId && e.displayName == m.displayName
    && ProviderName(e.provider) == "PROVIDER_" + Mapped(m.provider, casing.upper)
    && m.key != "" && m.modelId != "" && m.displayName != ""
    && forall c :: c in m.key ==> KeyRune(c)
  }

  lemma MirrorsRender(entries: seq<Entry>, models: seq<YamlEntry>, casing: Casing)
    requires Mirrors(entries, models, casing)
    ensures |entries| == |models| && forall i :: 0 <= i < |models| ==> Renders(entries[i], models[i], casing)
  {
    forall i | 0 <= i < |models| ensures Renders(entries[i], models[i], casing) {
      ProviderIsNamed(models[i], casing);
    }
  }

  class ModelCatalog {
    var entries: seq<Entry>
    var byKey: map<string, Entry>

    constructor ()
      ensures entries == [] && byKey == map[]
    {
      entries, byKey := [], map[];
    }

    ghost predicate Valid()
      reads this
    {
      DistinctKeys(entries) && byKey == Index(entries)
    }

    method Append(entry: Entry)
      requires Valid() && entry.key !in byKey
      modifies this
      ensures Valid() && entries == old(entries) + [entry]
    {
      IndexOffers(entries, entry.key);
      entries := entries + [entry];
      byKey := byKey[entry.key := entry];
      assert entries[..|entries| - 1] == old(entries);
    }

    /** The first thing wrong with entry `i`, given the entries before it. */
    method Check(m: YamlEntry, i: nat, casing: Casing) returns (error: Option<LoadError>)
      ensures error.None? <==> Acceptable(m, casing) && m.key !in byKey
      ensures error.Some? ==>
                !error.value.NoModels? && error.value.index == i && Blames(error.value, m, byKey.Keys, casing)
    {
      if m.key == "" || m.modelId == "" || m.displayName == "" { return Some(MissingField(i)); }
      var bad := FirstInvalidKeyRune(m.key);
      if bad.Some? { return Some(InvalidKey(i, bad.value)); }
      if ProviderOf(m, casing).None? { return Some(UnknownProvider(i)); }
      if m.key in byKey { return Some(DuplicateKey(i)); }
      error := None;
    }

    /** Fills the list and the index; refuses a file at its first bad entry. */
    method Load(models: seq<YamlEntry>, casing: Casing) returns (error: Option<LoadError>)
      requires entries == [] && byKey == map[]
      modifies this
      ensures Valid()
      ensures error.None? <==> Loads(models, casing)
      ensures error.None? ==> Mirrors(entries, models, casing)
      ensures error.None? ==>
                |entries| == |models| && forall i :: 0 <= i < |models| ==> Renders(entries[i], models[i], casing)
      ensures error == Some(NoModels) <==> models == []
      ensures error.Some? && models != [] ==>
                var k := error.value.index;
                && k < |models| && Mirrors(entries, models[..k], casing)
                && Blames(error.value, models[k], Index(entries).Keys, casing)
    {
      if |models| == 0 { return Some(NoModels); }
      for i := 0 to |models|
        invariant Valid() && |entries| == i
        invariant Mirrors(entries, models[..i], casing)
      {
        var checked := Check(models[i], i, casing);
        if checked.Some? {
          CheckedKeys(entries, models, i, casing);
          return checked;
        }
        MirrorsExtend(entries, models, i, casing);
        Append(EntryOf(models[i], casing));
      }
      assert models[..|models|] == models;
      MirroredLoads(entries, models, casing);
      MirrorsRender(entries, models, casing);
      error := None;
    }

    method Get(key: string) returns (entry: Option<Entry>)
      requires Valid()
      ensures entry.Some? <==> Offers(entries, key)
      ensures entry.Some? ==> entry.value in entries && entry.value.key == key
    {
      entry := if key in byKey then Some(byKey[key]) else None;
      IndexOffers(entries, key);
      if entry.Some? {
        var i :| 0 <= i < |entries| && entries[i].key == key;
        IndexFinds(entries, i);
      }
    }
  }

  // ---- searching ----

  /** `at` picks the needle out of the haystack, left to right. */
  predicate Embeds(needle: string, haystack: string, at: seq<nat>) {
    && |at| == |needle|
    && (forall i :: 0 <= i < |at| ==> at[i] < |haystack| && haystack[at[i]] == needle[i])
    && (forall i, j :: 0 <= i < j < |at| ==> at[i] < at[j])
  }

  /** The greedy scan as a recursion: take every match at once. */
  predicate Greedy(needle: string, haystack: string) {
    if needle == [] then true
    else if haystack == [] then false
    else Greedy(if haystack[0] == needle[0] then needle[1..] else needle, haystack[1..])
  }

  method IsSubsequence(needle: string, haystack: string) returns (r: bool)
    ensures r <==> exists at :: Embeds(needle, haystack, at)
  {
    GreedyIsEmbedding(needle, haystack);
    if needle == "" { return true; }
    var i := 0;
    for k := 0 to |haystack|
      invariant 0 <= i < |needle|
      invariant Greedy(needle, haystack) == Greedy(needle[i..], haystack[k..])
    {
      assert haystack[k..][1..] == haystack[k + 1..] && needle[i..][1..] == needle[i + 1..];
      if haystack[k] == needle[i] {
        i := i + 1;
        if i == |needle| { return true; }
      }
    }
    r := false;
  }

  lemma GreedyIsEmbedding(needle: string, haystack: string)
    ensures Greedy(needle, haystack) <==> exists at :: Embeds(needle, haystack, at)
  {
    if Greedy(needle, haystack) {
      var at := GreedyPicks(needle, haystack);
    }
    if at :| Embeds(needle, haystack, at) {
      GreedyMissesNothing(needle, haystack, at);
    }
  }

  function Shifted(at: seq<nat>): (out: seq<nat>)
    ensures |out| == |at| && forall i :: 0 <= i < |at| ==> out[i] == at[i] + 1
  {
    seq(|at|, i requires 0 <= i < |at| => at[i] + 1)
  }

  lemma {:induction false} GreedyPicks(needle: string, haystack: string) returns (at: seq<nat>)
    requires Greedy(needle, haystack)
    ensures Embeds(needle, haystack, at)
  {
    if needle == [] {
      at := [];
    } else if haystack[0] == needle[0] {
      var rest := GreedyPicks(needle[1..], haystack[1..]);
      at := [0] + Shifted(rest);
    } else {
      var rest := GreedyPicks(needle, haystack[1..]);
      at := Shifted(rest);
    }
  }

  lemma {:induction false} GreedyMissesNothing(needle: string, haystack: string, at: seq<nat>)
    requires Embeds(needle, haystack, at)
    ensures Greedy(needle, haystack)
    decreases |haystack|
  {
    if needle != [] {
      assert haystack[at[0]] == needle[0];
      if haystack[0] == needle[0] {
        var back := seq(|at| - 1, i requires 0 <= i < |at| - 1 => (assert at[0] < at[i + 1]; at[i + 1] - 1));
        GreedyMissesNothing(needle[1..], haystack[1..], back);
      } else {
        assert at[0] != 0;
        assert forall i :: 0 < i < |at| ==> at[0] < at[i];
        var back := seq(|at|, i requires 0 <= i < |at| => at[i] - 1);
        GreedyMissesNothing(needle, haystack[1..], back);
      }
    }
  }

  /** A shorter needle is found wherever a longer one is. */
  lemma {:induction false} PrefixIsFound(needle: string, longer: string, haystack: string)
    requires needle <= longer && Greedy(longer, haystack)
    ensures Greedy(needle, haystack)
    decreases |haystack|
  {
    if needle != [] {
      assert longer[0] == needle[0];
      if haystack[0] == needle[0] {
        PrefixIsFound(needle[1..], longer[1..], haystack[1..]);
      } else {
        PrefixIsFound(needle, longer, haystack[1..]);
      }
    }
  }

  function Needle(query: string, casing: Casing): string {
    Mapped(TrimSpace(query), casing.lower)
  }

  predicate Matches(needle: string, e: Entry, casing: Casing) {
    Greedy(needle, Mapped(e.key, casing.lower)) || Greedy(needle, Mapped(e.displayName, casing.lower))
  }

  /** The entries that match, in catalog order. */
  function Matching(entries: seq<Entry>, needle: string, casing: Casing): seq<Entry> {
    if entries == [] then []
    else
      var n := |entries| - 1;
      Matching(entries[..n], needle, casing) + (if Matches(needle, entries[n], casing) then [entries[n]] else [])
  }

  /** The trimmed query is found in the entry's key or in its display name, all lower case. */
  ghost predicate Found(query: string, e: Entry, casing: Casing) {
    var needle := Mapped(TrimSpace(query), casing.lower);
    || (exists at :: Embeds(needle, Mapped(e.key, casing.lower), at))
    || (exists at :: Embeds(needle, Mapped(e.displayName, casing.lower), at))
  }

  lemma MatchesIffFound(query: string, e: Entry, casing: Casing)
    ensures Matches(Needle(query, casing), e, casing) <==> Found(query, e, casing)
  {
    var needle := Mapped(TrimSpace(query), casing.lower);
    GreedyIsEmbedding(needle, Mapped(e.key, casing.lower));
    GreedyIsEmbedding(needle, Mapped(e.displayName, casing.lower));
  }

  /** The result is the catalog without what is not found, in the same order. */
  lemma {:induction false} ResultIsFiltered(entries: seq<Entry>, query: string, casing: Casing) returns (at: seq<nat>)
    ensures var out := Matching(entries, Needle(query, casing), casing);
            && |at| == |out|
            && (forall i :: 0 <= i < |at| ==> at[i] < |entries| && out[i] == entries[at[i]])
            && (forall i, j :: 0 <= i < j < |at| ==> at[i] < at[j])
            && (forall k :: 0 <= k < |entries| ==> (k in at <==> Found(query, entries[k], casing)))
  {
    if entries == [] {
      at := [];
    } else {
      var n := |entries| - 1;
      at := ResultIsFiltered(entries[..n], query, casing);
      MatchesIffFound(query, entries[n], casing);
      if Matches(Needle(query, casing), entries[n], casing) { at := at + [n]; }
    }
  }

  method Search(entries: seq<Entry>, query: string, casing: Casing) returns (out: seq<Entry>)
    ensures out == Matching(entries, Needle(query, casing), casing)
    ensures forall e :: e in out <==> e in entries && Found(query, e, casing)
  {
    MatchingMembers(entries, Needle(query, casing), casing);
    forall e ensures Matches(Needle(query, casing), e, casing) <==> Found(query, e, casing) {
      MatchesIffFound(query, e, casing);
    }
    var q := Mapped(TrimSpace(query), casing.lower);
    if q == "" {
      EverythingMatches(entries, casing);
      return entries;
    }
    out := [];
    for n := 0 to |entries|
      invariant out == Matching(entries[..n], q, casing)
    {
      assert entries[..n + 1][..n] == entries[..n];
      var key := Mapped(entries[n].key, casing.lower);
      var name := Mapped(entries[n].displayName, casing.lower);
      GreedyIsEmbedding(q, key);
      GreedyIsEmbedding(q, name);
      var found := IsSubsequence(q, key);
      if !found { found := IsSubsequence(q, name); }
      if found { out := out + [entries[n]]; }
    }
    assert entries[..|entries|] == entries;
  }

  lemma {:induction false} EverythingMatches(entries: seq<Entry>, casing: Casing)
    ensures Matching(entries, "", casing) == entries
  {
    if entries != [] {
      var n := |entries| - 1;
      EverythingMatches(entries[..n], casing);
      assert entries == entries[..n] + [entries[n]];
    }
  }

  lemma {:induction false} MatchingMembers(entries: seq<Entry>, needle: string, casing: Casing)
    ensures forall e :: e in Matching(entries, needle, casing) <==> e in entries && Matches(needle, e, casing)
  {
    if entries != [] {
      var n := |entries| - 1;
      MatchingMembers(entries[..n], needle, casing);
      assert entries == entries[..n] + [entries[n]];
    }
  }

  /** What trimming keeps of a query is a prefix of what it keeps of any extension. */
  lemma TrimExtends(query: string, more: string)
    requires TrimSpace(query) != ""
    ensures TrimSpace(query) <= TrimSpace(query + more)
  {
    TrimLeftCuts(query);
    var l := TrimLeft(query);
    TrimLeftExtends(query, more);
    TrimRightCuts(l);
    TrimRightCuts(l + more);
    var t := TrimSpace(query);
    assert (l + more)[|t| - 1] == t[|t| - 1];
    assert (l + more)[..|t|] == t;
  }

  lemma {:induction false} TrimLeftExtends(query: string, more: string)
    requires TrimLeft(query) != ""
    ensures TrimLeft(query + more) == TrimLeft(query) + more
  {
    if IsSpace(query[0]) {
      assert (query + more)[1..] == query[1..] + more;
      TrimLeftExtends(query[1..], more);
    }
  }

  lemma {:induction false} MatchingNarrows(entries: seq<Entry>, needle: string, longer: string, casing: Casing)
    requires needle <= longer
    ensures Matching(entries, longer, casing) == Matching(Matching(entries, needle, casing), longer, casing)
  {
    if entries != [] {
      var n := |entries| - 1;
      var e := entries[n];
      MatchingNarrows(entries[..n], needle, longer, casing);
      if Matches(longer, e, casing) {
        if Greedy(longer, Mapped(e.key, casing.lower)) {
          PrefixIsFound(needle, longer, Mapped(e.key, casing.lower));
        } else {
          PrefixIsFound(needle, longer, Mapped(e.displayName, casing.lower));
        }
      }
      if Matches(needle, e, casing) {
        var before := Matching(entries[..n], needle, casing);
        assert (before + [e])[..|before|] == before;
      } else {
        assert Matching(entries, needle, casing) == Matching(entries[..n], needle, casing);
      }
    }
  }

  /** Typing on can only narrow the result: the longer query's result is a search
      of the shorter one's, still in catalog order. */
  lemma ExtendingNarrows(entries: seq<Entry>, query: string, more: string, casing: Casing)
    ensures Matching(entries, Needle(query + more, casing), casing)
            == Matching(Matching(entries, Needle(query, casing), casing), Needle(query + more, casing), casing)
  {
    if TrimSpace(query) == "" {
      EverythingMatches(entries, casing);
    } else {
      TrimExtends(query, more);
      MatchingNarrows(entries, Needle(query, casing), Needle(query + more, casing), casing);
    }
  }

  // ---- seeding ----

  /** How a bucket write comes back: done, refused, or done with the reply lost. */
  datatype Write = Written | Refused | ReplyLost

  class Bucket {
    var data: map<string, Entry>
    ghost var past: seq<map<string, Entry>>  // every state so far, the present one last

    constructor (data: map<string, Entry>)
      ensures this.data == data && past == [data]
    {
      this.data, past := data, [data];
    }

    method Put(key: string, value: Entry, w: Write) returns (ok: bool)
      modifies this
      ensures data == if w.Refused? then old(data) else old(data)[key := value]
      ensures past == old(past) + [data]
      ensures ok <==> w.Written?
    {
      if w != Refused { data := data[key := value]; }
      past := past + [data];
      ok := w.Written?;
    }

    method Delete(key: string, w: Write) returns (ok: bool)
      modifies this
      ensures data == if w.Refused? then old(data) else old(data) - {key}
      ensures past == old(past) + [data]
      ensures ok <==> w.Written?
    {
      if w != Refused { data := data - {key}; }
      past := past + [data];
      ok := w.Written?;
    }

    /** The keys in some order; an empty bucket is not an error. */
    method Keys() returns (keys: seq<string>)
      ensures forall k :: k in keys <==> k in data
    {
      keys := [];
      var left := data.Keys;
      while left != {}
        invariant left <= data.Keys
        invariant forall k :: k in keys <==> k in data && k !in left
        decreases left
      {
        var k :| k in left;
        left := left - {k};
        keys := keys + [k];
      }
    }
  }

  /** No key the old bucket and the catalog share is missing, and its value is one of the two. */
  predicate SharedKept(before: map<string, Entry>, catalog: map<string, Entry>, state: map<string, Entry>) {
    forall k :: k in before && k in catalog ==> k in state && state[k] in {before[k], catalog[k]}
  }

  predicate Submap(part: map<string, Entry>, whole: map<string, Entry>) {
    forall k :: k in part ==> k in whole && part[k] == whole[k]
  }

  lemma LastIsNew(entries: seq<Entry>)
    requires DistinctKeys(entries) && entries != []
    ensures Submap(Index(entries[..|entries| - 1]), Index(entries))
  {
    var n := |entries| - 1;
    IndexOffers(entries[..n], entries[n].key);
    assert forall i :: 0 <= i < n ==> entries[..n][i].key != entries[n].key;
  }

  lemma {:induction false} PrefixIndex(entries: seq<Entry>, i: nat)
    requires DistinctKeys(entries) && i <= |entries|
    ensures Submap(Index(entries[..i]), Index(entries))
  {
    if i < |entries| {
      var n := |entries| - 1;
      PrefixIndex(entries[..n], i);
      LastIsNew(entries);
      assert entries[..n][..i] == entries[..i];
    } else {
      assert entries[..i] == entries;
    }
  }

  lemma OverlayShares(before: map<string, Entry>, part: map<string, Entry>, catalog: map<string, Entry>)
    requires Submap(part, catalog)
    ensures SharedKept(before, catalog, before + part)
  {
  }

  /** The bucket while the catalog is being written over it. */
  lemma UpsertStep(before: map<string, Entry>, entries: seq<Entry>, i: nat)
    requires DistinctKeys(entries) && i < |entries|
    ensures SharedKept(before, Index(entries), before + Index(entries[..i]))
    ensures SharedKept(before, Index(entries), before + Index(entries[..i + 1]))
    ensures (before + Index(entries[..i]))[entries[i].key := entries[i]] == before + Index(entries[..i + 1])
  {
    PrefixIndex(entries, i);
    PrefixIndex(entries, i + 1);
    OverlayShares(before, Index(entries[..i]), Index(entries));
    OverlayShares(before, Index(entries[..i + 1]), Index(entries));
    IndexStep(entries, i);
    OverlayStep(before, Index(entries[..i]), entries[i]);
  }

  lemma IndexStep(entries: seq<Entry>, i: nat)
    requires i < |entries|
    ensures Index(entries[..i + 1]) == Index(entries[..i])[entries[i].key := entries[i]]
  {
    assert entries[..i + 1][..i] == entries[..i];
  }

  lemma OverlayStep(before: map<string, Entry>, part: map<string, Entry>, e: Entry)
    ensures (before + part)[e.key := e] == before + part[e.key := e]
  {
  }

  /** Every bucket state from the `h`-th on keeps what the two revisions share. */
  ghost predicate AllShared(past: seq<map<string, Entry>>, h: nat,
                            before: map<string, Entry>, catalog: map<string, Entry>) {
    h <= |past| && forall n :: h <= n < |past| ==> SharedKept(before, catalog, past[n])
  }

  lemma SharedExtends(past: seq<map<string, Entry>>, h: nat, before: map<string, Entry>,
                      catalog: map<string, Entry>, state: map<string, Entry>)
    requires AllShared(past, h, before, catalog) && SharedKept(before, catalog, state)
    ensures AllShared(past + [state], h, before, catalog)
  {
  }

  lemma EvictionShares(before: map<string, Entry>, catalog: map<string, Entry>, state: map<string, Entry>, key: string)
    requires SharedKept(before, catalog, state) && key !in catalog
    ensures SharedKept(before, catalog, state - {key})
  {
  }

  lemma WantedIsIndex(entries: seq<Entry>)
    ensures (set e | e in entries :: e.key) == Index(entries).Keys
  {
    forall k ensures k in (set e | e in entries :: e.key) <==> k in Index(entries) {
      IndexOffers(entries, k);
      if Offers(entries, k) {
        var i :| 0 <= i < |entries| && entries[i].key == k;
        assert entries[i] in entries;
      }
    }
  }

  /** Ends with exactly the catalog's keys and values, from any bucket. Even when
      it stops early, a model both revisions offer never disappears on the way. */
  method Seed(entries: seq<Entry>, kv: Bucket, puts: string -> Write, listed: bool, deletes: string -> Write)
    returns (ok: bool)
    requires DistinctKeys(entries)
    modifies kv
    ensures ok ==> kv.data == Index(entries)
    ensures ok <==> (forall e :: e in entries ==> puts(e.key).Written?) && listed
                    && (forall k :: k in old(kv.data) && k !in Index(entries) ==> deletes(k).Written?)
    ensures old(kv.past) <= kv.past && AllShared(kv.past, |old(kv.past)|, old(kv.data), Index(entries))
  {
    ghost var before := kv.data;
    ghost var h := |kv.past|;
    for i := 0 to |entries|
      invariant kv.data == before + Index(entries[..i])
      invariant old(kv.past) <= kv.past && AllShared(kv.past, h, before, Index(entries))
      invariant forall e :: e in entries[..i] ==> puts(e.key).Written?
    {
      UpsertStep(before, entries, i);
      var done := kv.Put(entries[i].key, entries[i], puts(entries[i].key));
      if !done {
        assert entries[i] in entries;
        return false;
      }
      assert entries[..i + 1] == entries[..i] + [entries[i]];
    }
    assert entries[..|entries|] == entries;
    if !listed { return false; }
    ok := Evict(entries, kv, before, deletes);
  }

  /** `state` is `full` without the unwanted keys among `seen`. */
  ghost predicate Evicted(full: map<string, Entry>, wanted: set<string>, seen: seq<string>, state: map<string, Entry>) {
    Submap(state, full) && forall k :: k in full ==> (k in state <==> k in wanted || k !in seen)
  }

  lemma EvictedExtends(full: map<string, Entry>, wanted: set<string>, seen: seq<string>,
                       state: map<string, Entry>, key: string)
    requires Evicted(full, wanted, seen, state)
    ensures Evicted(full, wanted, seen + [key], if key in wanted then state else state - {key})
  {
  }

  lemma EvictionEnds(before: map<string, Entry>, entries: seq<Entry>, seen: seq<string>, state: map<string, Entry>)
    requires Evicted(before + Index(entries), Index(entries).Keys, seen, state)
    requires forall k :: k in before + Index(entries) ==> k in seen
    ensures state == Index(entries)
  {
  }

  /** The reconciling half: every key outside the catalog goes. */
  method Evict(entries: seq<Entry>, kv: Bucket, ghost before: map<string, Entry>, deletes: string -> Write)
    returns (ok: bool)
    requires kv.data == before + Index(entries)
    modifies kv
    ensures ok ==> kv.data == Index(entries)
    ensures ok <==> forall k :: k in before && k !in Index(entries) ==> deletes(k).Written?
    ensures old(kv.past) <= kv.past && AllShared(kv.past, |old(kv.past)|, before, Index(entries))
  {
    var current := kv.Keys();
    var wanted := set e | e in entries :: e.key;
    WantedIsIndex(entries);
    ghost var full := kv.data;
    ghost var h := |kv.past|;
    OverlayShares(before, Index(entries), Index(entries));
    for j := 0 to |current|
      invariant Evicted(full, wanted, current[..j], kv.data) && SharedKept(before, Index(entries), kv.data)
      invariant old(kv.past) <= kv.past && AllShared(kv.past, h, before, Index(entries))
      invariant forall k :: k in current[..j] && k !in wanted ==> deletes(k).Written?
    {
      assert current[..j + 1] == current[..j] + [current[j]];
      EvictedExtends(full, wanted, current[..j], kv.data, current[j]);
      if current[j] in wanted { continue; }
      EvictionShares(before, Index(entries), kv.data, current[j]);
      SharedExtends(kv.past, h, before, Index(entries), kv.data);
      SharedExtends(kv.past, h, before, Index(entries), kv.data - {current[j]});
      var done := kv.Delete(current[j], deletes(current[j]));
      if !done { return false; }
    }
    assert current[..|current|] == current;
    EvictionEnds(before, entries, current, kv.data);
    ok := true;
  }
}
