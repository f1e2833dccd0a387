/** The three-way merge of cleanup findings, and the counts reported about it. */
module Merge {
  import opened Distinct
  import opened Wrappers

  datatype Source = Deterministic | Semantic | Host

  /** The semantic scan does not validate what it is given. */
  datatype Confidence = High | Medium | Low | Unvalidated(text: string)

  datatype Finding = Finding(
    key: string,
    scope: string,
    confidence: Confidence,
    file: string,
    line: Option<int>,
    description: string,
    recommendation: string,
    deterministicEvidence: seq<string>,
    semanticEvidence: seq<string>,
    hostEvidence: seq<string>,
    sources: seq<Source>,
    disputed: bool,
    groupKey: Option<string>,
    packageName: Option<string>)

  // ---- keys ----

  function Slashes(s: string): (r: string)
    ensures |r| == |s|
  {
    seq(|s|, i requires 0 <= i < |s| => if s[i] == '\\' then '/' else s[i])
  }

  function Split(s: string): (r: seq<string>)
    ensures r != []
  {
    if s == "" then [""]
    else
      var rest := Split(s[1..]);
      if s[0] == ':' then [""] + rest else [[s[0]] + rest[0]] + rest[1..]
  }

  function Join(segments: seq<string>): string {
    if segments == [] then ""
    else if |segments| == 1 then segments[0]
    else segments[0] + ":" + Join(segments[1..])
  }

  /** `s.replace(/^\.\//, '')`. */
  function Strip(s: string): string {
    if "./" <= s then s[2..] else s
  }

  function StripAll(segments: seq<string>): (r: seq<string>)
    ensures |r| == |segments|
  {
    seq(|segments|, i requires 0 <= i < |segments| => Strip(segments[i]))
  }

  function NormalizeKey(key: string): string {
    Join(StripAll(Split(Slashes(key))))
  }

  predicate NoColon(s: string) {
    forall i :: 0 <= i < |s| ==> s[i] != ':'
  }

  predicate AllNoColon(segments: seq<string>) {
    forall i :: 0 <= i < |segments| ==> NoColon(segments[i])
  }

  lemma {:induction false} SplitPieces(s: string)
    ensures AllNoColon(Split(s))
  {
    if s != "" {
      SplitPieces(s[1..]);
      assert NoColon(Split(s[1..])[0]);
    }
  }

  lemma {:induction false} SplitPrefix(s: string, rest: string)
    requires NoColon(s)
    ensures Split(s + ":" + rest) == [s] + Split(rest)
    ensures Split(s) == [s]
  {
    if s == "" {
      assert (s + ":" + rest)[1..] == rest;
    } else {
      assert (s + ":" + rest)[1..] == s[1..] + ":" + rest;
      assert s[0] != ':' && [s[0]] + s[1..] == s;
      SplitPrefix(s[1..], rest);
    }
  }

  /** Splitting undoes joining. */
  lemma {:induction false} SplitJoin(segments: seq<string>)
    requires segments != [] && AllNoColon(segments)
    ensures Split(Join(segments)) == segments
  {
    if |segments| == 1 {
      SplitPrefix(segments[0], "");
    } else {
      SplitJoin(segments[1..]);
      SplitPrefix(segments[0], Join(segments[1..]));
    }
  }

  predicate Unslashed(s: string) {
    forall i :: 0 <= i < |s| ==> s[i] != '\\'
  }

  lemma {:induction false} JoinUnslashed(segments: seq<string>)
    requires forall i :: 0 <= i < |segments| ==> Unslashed(segments[i])
    ensures Unslashed(Join(segments))
  {
    if |segments| > 1 {
      JoinUnslashed(segments[1..]);
    }
  }

  lemma {:induction false} SplitUnslashed(s: string)
    requires Unslashed(s)
    ensures forall i :: 0 <= i < |Split(s)| ==> Unslashed(Split(s)[i])
  {
    if s != "" {
      SplitUnslashed(s[1..]);
    }
  }

  lemma StripAllKeeps(segments: seq<string>)
    requires AllNoColon(segments)
    ensures AllNoColon(StripAll(segments))
    ensures (forall i :: 0 <= i < |segments| ==> Unslashed(segments[i])) ==>
              (forall i :: 0 <= i < |segments| ==> Unslashed(StripAll(segments)[i]))
  {
    forall i | 0 <= i < |segments|
      ensures NoColon(StripAll(segments)[i])
    {
      assert NoColon(segments[i]);
    }
  }

  /** Normalizing a normalized key strips its segments once more. */
  lemma NormalizeAgain(key: string)
    ensures var once := StripAll(Split(Slashes(key)));
            && NormalizeKey(NormalizeKey(key)) == Join(StripAll(once))
            && (Join(StripAll(once)) == Join(once) <==> StripAll(once) == once)
  {
    var segments := Split(Slashes(key));
    var once := StripAll(segments);
    SplitPieces(Slashes(key));
    SplitUnslashed(Slashes(key));
    StripAllKeeps(segments);
    StripAllKeeps(once);
    SplitJoin(once);
    SplitJoin(StripAll(once));
    JoinUnslashed(once);
    assert Slashes(Join(once)) == Join(once);
  }

  /** Normalizing twice is normalizing once exactly when no segment starts with a doubled `./`. */
  lemma NormalizeTwiceIff(key: string)
    ensures NormalizeKey(NormalizeKey(key)) == NormalizeKey(key) <==>
            forall i :: 0 <= i < |Split(Slashes(key))| ==> !("././" <= Split(Slashes(key))[i])
  {
    var segments := Split(Slashes(key));
    var once := StripAll(segments);
    NormalizeAgain(key);
    forall i | 0 <= i < |segments|
      ensures StripAll(once)[i] == once[i] <==> !("././" <= segments[i])
    {
      StripTwice(segments[i]);
    }
  }

  lemma StripTwice(s: string)
    ensures Strip(Strip(s)) == Strip(s) <==> !("././" <= s)
  {
    if "./" <= s {
      assert s == "./" + s[2..];
      if "./" <= s[2..] {
        assert s[2..] == "./" + s[4..];
      }
    }
  }

  lemma {:induction false} SlashesJoin(segments: seq<string>)
    requires AllNoColon(segments)
    ensures AllNoColon(seq(|segments|, i requires 0 <= i < |segments| => Slashes(segments[i])))
    ensures Slashes(Join(segments)) == Join(seq(|segments|, i requires 0 <= i < |segments| => Slashes(segments[i])))
  {
    var slashed := seq(|segments|, i requires 0 <= i < |segments| => Slashes(segments[i]));
    forall i | 0 <= i < |segments|
      ensures NoColon(slashed[i])
    {
      assert NoColon(segments[i]);
    }
    if |segments| > 1 {
      SlashesJoin(segments[1..]);
      assert slashed[1..] == seq(|segments[1..]|, i requires 0 <= i < |segments[1..]| => Slashes(segments[1..][i]));
    }
  }

  lemma SegmentIsNormalized(segment: string)
    ensures IsNormalized(segment, Strip(Slashes(segment)))
  {
    var forward := Slashes(segment);
    assert "./" <= forward <==> |forward| >= 2 && forward[0] == '.' && forward[1] == '/';
  }

  /** A key is normalized segment by segment: slashes turn, and one leading `./` goes. */
  lemma NormalizeSegments(segments: seq<string>) returns (parts: seq<string>)
    requires segments != [] && AllNoColon(segments)
    ensures NormalizeKey(Join(segments)) == Join(parts) && |parts| == |segments|
    ensures forall i :: 0 <= i < |parts| ==> IsNormalized(segments[i], parts[i])
  {
    hide Slashes, Strip, Split, Join, IsNormalized, NoColon;
    var slashed := seq(|segments|, i requires 0 <= i < |segments| => Slashes(segments[i]));
    SlashesJoin(segments);
    SplitJoin(slashed);
    parts := StripAll(slashed);
    forall i | 0 <= i < |parts|
      ensures IsNormalized(segments[i], parts[i])
    {
      SegmentIsNormalized(segments[i]);
    }
  }

  /** `part` is `segment` with every backslash turned and one `./` taken off the front. */
  predicate IsNormalized(segment: string, part: string) {
    var dropped := if |segment| >= 2 && segment[0] == '.' && segment[1] in {'/', '\\'} then 2 else 0;
    && |part| == |segment| - dropped
    && forall i :: 0 <= i < |part| ==>
         part[i] == if segment[dropped + i] == '\\' then '/' else segment[dropped + i]
  }

  /** Every key is such a list of segments. */
  lemma {:induction false} KeyHasSegments(key: string)
    ensures AllNoColon(Split(key)) && Join(Split(key)) == key
  {
    SplitPieces(key);
    if key != "" {
      hide NoColon, Join;
      KeyHasSegments(key[1..]);
      var rest := Split(key[1..]);
      assert [key[0]] + key[1..] == key;
      if key[0] == ':' {
        assert Split(key) == [""] + rest;
        JoinPrepends("", rest);
      } else {
        assert Split(key) == [[key[0]] + rest[0]] + rest[1..];
        JoinGrows(key[0], rest);
      }
    }
  }

  lemma JoinPrepends(segment: string, rest: seq<string>)
    requires rest != []
    ensures Join([segment] + rest) == segment + ":" + Join(rest)
  {
    assert ([segment] + rest)[1..] == rest;
  }

  lemma JoinGrows(c: char, segments: seq<string>)
    requires segments != []
    ensures Join([[c] + segments[0]] + segments[1..]) == [c] + Join(segments)
  {
    assert ([[c] + segments[0]] + segments[1..])[1..] == segments[1..];
  }

  // ---- what the merge means ----

  /** The input as one stream: a finding and where it comes from. */
  datatype Entry = Entry(source: Source, finding: Finding)

  function From(source: Source, findings: seq<Finding>): seq<Entry> {
    seq(|findings|, i requires 0 <= i < |findings| => Entry(source, findings[i]))
  }

  function Stream(deterministic: seq<Finding>, semantic: seq<Finding>, host: seq<Finding>): seq<Entry> {
    From(Deterministic, deterministic) + From(Semantic, semantic) + From(Host, host)
  }

  function KeyOf(f: Finding): string {
    NormalizeKey(f.key)
  }

  function Keys(seen: seq<Entry>): seq<string> {
    seq(|seen|, i requires 0 <= i < |seen| => KeyOf(seen[i].finding))
  }

  /** The evidence a scanner of this kind attaches. */
  function Own(source: Source, f: Finding): seq<string> {
    match source
    case Deterministic => f.deterministicEvidence
    case Semantic => f.semanticEvidence
    case Host => f.hostEvidence
  }

  /** All evidence of one kind for one key, in input order. */
  function Evidence(seen: seq<Entry>, k: string, source: Source): seq<string> {
    if seen == [] then []
    else
      var e := seen[|seen| - 1];
      Evidence(seen[..|seen| - 1], k, source) +
      if e.source == source && KeyOf(e.finding) == k then Own(source, e.finding) else []
  }

  /** Every source of one key, once per occurrence. */
  function Tags(seen: seq<Entry>, k: string): seq<Source> {
    if seen == [] then []
    else
      var e := seen[|seen| - 1];
      Tags(seen[..|seen| - 1], k) + if KeyOf(e.finding) == k then [e.source] else []
  }

  function Sources(seen: seq<Entry>, k: string): seq<Source> {
    Firsts(Tags(seen, k))
  }

  /** The finding that first brought the key. */
  function First(seen: seq<Entry>, k: string): Finding
    requires k in Keys(seen)
  {
    seen[FirstAt(Keys(seen), k)].finding
  }

  /** A merged finding before the confidence rules. */
  function Gathered(seen: seq<Entry>, k: string): Finding
    requires k in Keys(seen)
  {
    First(seen, k).(
      key := k,
      deterministicEvidence := Evidence(seen, k, Deterministic),
      semanticEvidence := Evidence(seen, k, Semantic),
      hostEvidence := Evidence(seen, k, Host),
      sources := [])
  }

  /** The confidence rules: two sources or more agree, a single one stands disputed. */
  function Ruled(f: Finding, sources: seq<Source>): Finding {
    if |sources| >= 2 then f.(sources := sources, confidence := High, disputed := false)
    else f.(sources := sources, disputed := true)
  }

  function Merged(seen: seq<Entry>, k: string): Finding
    requires k in Keys(seen)
  {
    Ruled(Gathered(seen, k), Sources(seen, k))
  }

  /** The merge: one finding per distinct key, in order of first occurrence. */
  function MergedAll(seen: seq<Entry>): (r: seq<Finding>)
    ensures |r| == |Firsts(Keys(seen))|
  {
    var keys := Firsts(Keys(seen));
    seq(|keys|, i requires 0 <= i < |keys| => FirstsIn(Keys(seen), i); Merged(seen, keys[i]))
  }

  lemma MergedKeyAt(seen: seq<Entry>, i: nat)
    requires i < |MergedAll(seen)|
    ensures MergedAll(seen)[i].key == Firsts(Keys(seen))[i]
  {
    FirstsIn(Keys(seen), i);
    hide Evidence, Sources, First;
  }

  /** No key is merged twice, and the merged keys stand in the order in which they first came up. */
  lemma OnePerKey(seen: seq<Entry>, i: nat, j: nat)
    requires i < j < |MergedAll(seen)|
    ensures var a, b := MergedAll(seen)[i].key, MergedAll(seen)[j].key;
            a in Keys(seen) && b in Keys(seen) && a != b && FirstAt(Keys(seen), a) < FirstAt(Keys(seen), b)
  {
    MergedKeyAt(seen, i);
    MergedKeyAt(seen, j);
    hide MergedAll;
    FirstsInOrder(Keys(seen), i, j);
  }

  /** Every key of the input is merged. */
  lemma EveryKeyIsMerged(seen: seq<Entry>, k: string)
    requires k in Keys(seen)
    ensures exists i :: 0 <= i < |MergedAll(seen)| && MergedAll(seen)[i].key == k
  {
    assert k in Elements(Firsts(Keys(seen)));
    var i :| 0 <= i < |Firsts(Keys(seen))| && Firsts(Keys(seen))[i] == k;
    MergedKeyAt(seen, i);
  }

  /** One kind of evidence of one key, gathered from a list of findings in order. */
  function Collected(findings: seq<Finding>, k: string, part: Finding -> seq<string>): seq<string> {
    if findings == [] then []
    else
      var f := findings[|findings| - 1];
      Collected(findings[..|findings| - 1], k, part) + if NormalizeKey(f.key) == k then part(f) else []
  }

  lemma EvidenceConcatOne(a: seq<Entry>, b: seq<Entry>, e: Entry, k: string, source: Source)
    requires Evidence(a + b, k, source) == Evidence(a, k, source) + Evidence(b, k, source)
    ensures Evidence(a + (b + [e]), k, source) == Evidence(a, k, source) + Evidence(b + [e], k, source)
  {
    EvidenceGrows(a + b, e, k, source);
    EvidenceGrows(b, e, k, source);
    hide *;
    assert a + (b + [e]) == a + b + [e];
  }

  lemma {:induction false} EvidenceConcat(a: seq<Entry>, b: seq<Entry>, k: string, source: Source)
    ensures Evidence(a + b, k, source) == Evidence(a, k, source) + Evidence(b, k, source)
  {
    hide KeyOf;
    if b == [] {
      assert a + b == a;
    } else {
      hide *;
      var before, e := b[..|b| - 1], b[|b| - 1];
      assert b == before + [e];
      EvidenceConcat(a, before, k, source);
      EvidenceConcatOne(a, before, e, k, source);
    }
  }

  lemma {:induction false} EvidenceFrom(source: Source, findings: seq<Finding>, k: string, part: Finding -> seq<string>)
    requires forall f :: part(f) == Own(source, f)
    ensures Evidence(From(source, findings), k, source) == Collected(findings, k, part)
  {
    if findings != [] {
      var n := |findings| - 1;
      EvidenceFrom(source, findings[..n], k, part);
      assert From(source, findings)[..n] == From(source, findings[..n]);
      hide NormalizeKey;
    }
  }

  lemma {:induction false} EvidenceFromOthers(source: Source, findings: seq<Finding>, k: string, other: Source)
    requires source != other
    ensures Evidence(From(other, findings), k, source) == []
  {
    if findings != [] {
      var n := |findings| - 1;
      EvidenceFromOthers(source, findings[..n], k, other);
      assert From(other, findings)[..n] == From(other, findings[..n]);
      hide KeyOf;
    }
  }

  lemma EvidenceOfStream(deterministic: seq<Finding>, semantic: seq<Finding>, host: seq<Finding>, k: string, source: Source)
    ensures Evidence(Stream(deterministic, semantic, host), k, source) ==
            Evidence(From(Deterministic, deterministic), k, source) + Evidence(From(Semantic, semantic), k, source)
            + Evidence(From(Host, host), k, source)
  {
    hide From, Evidence;
    var d, s, h := From(Deterministic, deterministic), From(Semantic, semantic), From(Host, host);
    EvidenceConcat(d, s, k, source);
    EvidenceConcat(d + s, h, k, source);
  }

  /** The evidence of a merged finding, kind by kind: that kind's evidence of the findings with its key, in input
      order, each from the list of the scanner that attaches it. */
  lemma EvidenceIsCollected(deterministic: seq<Finding>, semantic: seq<Finding>, host: seq<Finding>, i: nat)
    requires i < |MergedAll(Stream(deterministic, semantic, host))|
    ensures var f := MergedAll(Stream(deterministic, semantic, host))[i];
            && f.deterministicEvidence == Collected(deterministic, f.key, (g: Finding) => g.deterministicEvidence)
            && f.semanticEvidence == Collected(semantic, f.key, (g: Finding) => g.semanticEvidence)
            && f.hostEvidence == Collected(host, f.key, (g: Finding) => g.hostEvidence)
  {
    var seen := Stream(deterministic, semantic, host);
    var f, k := MergedAll(seen)[i], Firsts(Keys(seen))[i];
    FirstsIn(Keys(seen), i);
    assert f == Merged(seen, k);
    EvidenceFrom(Deterministic, deterministic, k, (g: Finding) => g.deterministicEvidence);
    EvidenceFrom(Semantic, semantic, k, (g: Finding) => g.semanticEvidence);
    EvidenceFrom(Host, host, k, (g: Finding) => g.hostEvidence);
    OthersBringNothing(deterministic, semantic, host, k);
    hide MergedAll, Evidence, Collected, From, Stream, KeyOf, First, Sources;
  }

  lemma OthersBringNothing(deterministic: seq<Finding>, semantic: seq<Finding>, host: seq<Finding>, k: string)
    ensures var seen := Stream(deterministic, semantic, host);
            && Evidence(seen, k, Deterministic) == Evidence(From(Deterministic, deterministic), k, Deterministic)
            && Evidence(seen, k, Semantic) == Evidence(From(Semantic, semantic), k, Semantic)
            && Evidence(seen, k, Host) == Evidence(From(Host, host), k, Host)
  {
    hide Evidence, From, Stream;
    EvidenceOfStream(deterministic, semantic, host, k, Deterministic);
    EvidenceOfStream(deterministic, semantic, host, k, Semantic);
    EvidenceOfStream(deterministic, semantic, host, k, Host);
    EvidenceFromOthers(Deterministic, semantic, k, Semantic);
    EvidenceFromOthers(Deterministic, host, k, Host);
    EvidenceFromOthers(Semantic, deterministic, k, Deterministic);
    EvidenceFromOthers(Semantic, host, k, Host);
    EvidenceFromOthers(Host, deterministic, k, Deterministic);
    EvidenceFromOthers(Host, semantic, k, Semantic);
  }

  /** All else a merged finding says it has from the first input finding of its key; two sources raise its
      confidence to high, and a single one leaves it as it is and disputed. */
  lemma RestIsTheFirst(seen: seq<Entry>, i: nat)
    requires i < |MergedAll(seen)|
    ensures var f := MergedAll(seen)[i];
            exists p: nat ::
              && p < |seen| && NormalizeKey(seen[p].finding.key) == f.key
              && (forall q :: 0 <= q < p ==> NormalizeKey(seen[q].finding.key) != f.key)
              && f == seen[p].finding.(
                        key := f.key, deterministicEvidence := f.deterministicEvidence,
                        semanticEvidence := f.semanticEvidence, hostEvidence := f.hostEvidence, sources := f.sources,
                        confidence := if |f.sources| >= 2 then High else seen[p].finding.confidence,
                        disputed := |f.sources| < 2)
  {
    var f, k := MergedAll(seen)[i], Firsts(Keys(seen))[i];
    FirstsIn(Keys(seen), i);
    assert f == Merged(seen, k);
    var p := FirstAt(Keys(seen), k);
    hide MergedAll, Evidence, Sources, Firsts, FirstAt;
    forall q | 0 <= q < p
      ensures NormalizeKey(seen[q].finding.key) != k
    {
      assert Keys(seen)[..p][q] == NormalizeKey(seen[q].finding.key);
    }
    assert Keys(seen)[p] == NormalizeKey(seen[p].finding.key);
    hide NormalizeKey;
  }

  lemma FirstsIn(xs: seq<string>, i: nat)
    requires i < |Firsts(xs)|
    ensures Firsts(xs)[i] in xs
  {
    assert Firsts(xs)[i] in Elements(Firsts(xs));
  }

  // ---- the merge as it runs ----

  /** An insertion-ordered map of findings and its companion map of source sets. */
  datatype Table = Table(order: seq<string>, merged: map<string, Finding>, sourceSet: map<string, seq<Source>>)

  predicate Shaped(m: Table) {
    m.merged.Keys == Elements(m.order) && m.sourceSet.Keys == Elements(m.order)
  }

  ghost predicate Holds(m: Table, seen: seq<Entry>) {
    && m.order == Firsts(Keys(seen)) && Shaped(m)
    && forall k :: k in Keys(seen) ==> HoldsAt(m, seen, k)
  }

  predicate HoldsAt(m: Table, seen: seq<Entry>, k: string)
    requires k in Keys(seen)
  {
    k in m.merged && k in m.sourceSet && m.merged[k] == Gathered(seen, k) && m.sourceSet[k] == Sources(seen, k)
  }

  function WithEvidence(f: Finding, source: Source, more: seq<string>): Finding {
    match source
    case Deterministic => f.(deterministicEvidence := f.deterministicEvidence + more)
    case Semantic => f.(semanticEvidence := f.semanticEvidence + more)
    case Host => f.(hostEvidence := f.hostEvidence + more)
  }

  /** The entry a new key gets. */
  function Opened(f: Finding, source: Source, k: string): Finding {
    WithEvidence(f.(key := k, deterministicEvidence := [], semanticEvidence := [], hostEvidence := [], sources := []),
                 source, Own(source, f))
  }

  function Inserted(m: Table, source: Source, f: Finding): Table
    requires Shaped(m)
  {
    var k := KeyOf(f);
    if k in m.merged then
      m.(merged := m.merged[k := WithEvidence(m.merged[k], source, Own(source, f))],
         sourceSet := m.sourceSet[k := Add(m.sourceSet[k], source)])
    else
      Table(m.order + [k], m.merged[k := Opened(f, source, k)], m.sourceSet[k := [source]])
  }

  lemma KeysGrow(seen: seq<Entry>, e: Entry)
    ensures Keys(seen + [e]) == Keys(seen) + [KeyOf(e.finding)]
  {
  }

  lemma FirstStays(seen: seq<Entry>, e: Entry, k: string)
    requires k in Keys(seen)
    ensures k in Keys(seen + [e]) && First(seen + [e], k) == First(seen, k)
  {
    hide KeyOf;
    KeysGrow(seen, e);
    FirstAtStays(Keys(seen), k, KeyOf(e.finding));
  }

  lemma EvidenceGrows(seen: seq<Entry>, e: Entry, k: string, source: Source)
    ensures Evidence(seen + [e], k, source) ==
            Evidence(seen, k, source) + if e.source == source && KeyOf(e.finding) == k then Own(source, e.finding) else []
  {
    hide KeyOf;
    assert (seen + [e])[..|seen|] == seen;
  }

  lemma SourcesGrow(seen: seq<Entry>, e: Entry, k: string)
    ensures Sources(seen + [e], k) == if KeyOf(e.finding) == k then Add(Sources(seen, k), e.source) else Sources(seen, k)
  {
    hide KeyOf;
    assert (seen + [e])[..|seen|] == seen;
    FirstsAdd(Tags(seen, k), e.source);
    assert Tags(seen, k) + [] == Tags(seen, k);
  }

  /** What another entry changes about a key. */
  lemma GatheredGrows(seen: seq<Entry>, e: Entry, k: string)
    requires k in Keys(seen)
    ensures k in Keys(seen + [e])
    ensures Gathered(seen + [e], k) ==
            if KeyOf(e.finding) == k then WithEvidence(Gathered(seen, k), e.source, Own(e.source, e.finding))
            else Gathered(seen, k)
    ensures var before, after, f := Gathered(seen, k), Gathered(seen + [e], k), e.finding;
            if NormalizeKey(f.key) != k then after == before
            else match e.source
              case Deterministic => after == before.(deterministicEvidence := before.deterministicEvidence + f.deterministicEvidence)
              case Semantic => after == before.(semanticEvidence := before.semanticEvidence + f.semanticEvidence)
              case Host => after == before.(hostEvidence := before.hostEvidence + f.hostEvidence)
  {
    assert KeyOf(e.finding) == NormalizeKey(e.finding.key);
    hide NormalizeKey;
    FirstStays(seen, e, k);
    EvidenceGrows(seen, e, k, Deterministic);
    EvidenceGrows(seen, e, k, Semantic);
    EvidenceGrows(seen, e, k, Host);
    hide Evidence, First, Keys, KeyOf;
    assert Evidence(seen, k, Deterministic) + [] == Evidence(seen, k, Deterministic);
    assert Evidence(seen, k, Semantic) + [] == Evidence(seen, k, Semantic);
    assert Evidence(seen, k, Host) + [] == Evidence(seen, k, Host);
  }

  lemma {:induction false} Unseen(seen: seq<Entry>, k: string, source: Source)
    requires k !in Keys(seen)
    ensures Evidence(seen, k, source) == [] && Tags(seen, k) == []
  {
    if seen != [] {
      assert seen == seen[..|seen| - 1] + [seen[|seen| - 1]];
      KeysGrow(seen[..|seen| - 1], seen[|seen| - 1]);
      Unseen(seen[..|seen| - 1], k, source);
    }
  }

  /** What the first entry of a key leaves. */
  lemma GatheredOpens(seen: seq<Entry>, e: Entry)
    requires KeyOf(e.finding) !in Keys(seen)
    ensures var k := KeyOf(e.finding);
            && k in Keys(seen + [e]) && Gathered(seen + [e], k) == Opened(e.finding, e.source, k)
            && Sources(seen + [e], k) == [e.source]
  {
    var k := KeyOf(e.finding);
    KeysGrow(seen, e);
    FirstAtLast(Keys(seen), k);
    assert (seen + [e])[..|seen|] == seen;
    Unseen(seen, k, Deterministic);
    Unseen(seen, k, Semantic);
    Unseen(seen, k, Host);
    FirstsAdd([], e.source);
  }

  lemma ShapedOne(m: Table, seen: seq<Entry>, e: Entry)
    requires m.order == Firsts(Keys(seen)) && Shaped(m)
    ensures var next := Inserted(m, e.source, e.finding);
            next.order == Firsts(Keys(seen + [e])) && Shaped(next)
    ensures KeyOf(e.finding) in m.merged <==> KeyOf(e.finding) in Keys(seen)
  {
    var k := KeyOf(e.finding);
    KnownKey(m, seen, k);
    InsertedKeys(m, e.source, e.finding);
    KeysGrow(seen, e);
    FirstsAdd(Keys(seen), k);
    hide Inserted, KeyOf, Keys, Firsts, Elements, Add;
  }

  lemma InsertedKeys(m: Table, source: Source, f: Finding)
    requires Shaped(m) && (KeyOf(f) in m.merged <==> KeyOf(f) in m.order)
    requires KeyOf(f) in m.merged <==> KeyOf(f) in m.sourceSet
    ensures var k, next := KeyOf(f), Inserted(m, source, f);
            && next.order == Add(m.order, k)
            && next.merged.Keys == m.merged.Keys + {k} && next.sourceSet.Keys == m.sourceSet.Keys + {k}
  {
    hide KeyOf, Opened, WithEvidence, Elements;
  }

  lemma KnownKey(m: Table, seen: seq<Entry>, k: string)
    requires m.order == Firsts(Keys(seen)) && Shaped(m)
    ensures (k in m.merged <==> k in Keys(seen)) && (k in m.merged <==> k in m.order)
    ensures k in m.merged <==> k in m.sourceSet
  {
    hide Firsts, Keys;
    assert k in Elements(m.order) <==> k in m.order;
    assert k in Elements(Keys(seen)) <==> k in Keys(seen);
  }

  lemma HoldsAtKnown(m: Table, seen: seq<Entry>, e: Entry, j: string)
    requires Shaped(m) && j in Keys(seen) && HoldsAt(m, seen, j)
    requires KeyOf(e.finding) in m.merged <==> KeyOf(e.finding) in Keys(seen)
    ensures j in Keys(seen + [e]) && HoldsAt(Inserted(m, e.source, e.finding), seen + [e], j)
  {
    SourcesGrow(seen, e, j);
    GatheredGrows(seen, e, j);
    InsertedAt(m, e.source, e.finding, j);
    hide Inserted, KeyOf, Gathered, Sources, Opened, WithEvidence, Own, Keys, Shaped, Add, Elements, NoDuplicates;
  }

  /** What an insertion does to a key that is there. */
  lemma InsertedAt(m: Table, source: Source, f: Finding, j: string)
    requires Shaped(m) && j in m.merged && j in m.sourceSet
    ensures var next := Inserted(m, source, f);
            && j in next.merged && j in next.sourceSet
            && (KeyOf(f) == j ==> && next.merged[j] == WithEvidence(m.merged[j], source, Own(source, f))
                                  && next.sourceSet[j] == Add(m.sourceSet[j], source))
            && (KeyOf(f) != j ==> next.merged[j] == m.merged[j] && next.sourceSet[j] == m.sourceSet[j])
  {
    hide KeyOf, Opened, WithEvidence, Own, Elements, NoDuplicates;
  }

  lemma HoldsAtNew(m: Table, seen: seq<Entry>, e: Entry)
    requires Shaped(m) && KeyOf(e.finding) !in Keys(seen) && KeyOf(e.finding) !in m.merged
    ensures var k := KeyOf(e.finding);
            k in Keys(seen + [e]) && HoldsAt(Inserted(m, e.source, e.finding), seen + [e], k)
  {
    GatheredOpens(seen, e);
    hide KeyOf, Gathered, Sources, Opened, WithEvidence, Keys, Shaped;
  }

  lemma HoldsAtOne(m: Table, seen: seq<Entry>, e: Entry, j: string)
    requires Shaped(m) && (j in Keys(seen) ==> HoldsAt(m, seen, j))
    requires KeyOf(e.finding) in m.merged <==> KeyOf(e.finding) in Keys(seen)
    requires j in Keys(seen + [e])
    ensures HoldsAt(Inserted(m, e.source, e.finding), seen + [e], j)
  {
    KeysGrow(seen, e);
    hide Keys, KeyOf, HoldsAt, Shaped, Inserted;
    if j in Keys(seen) {
      HoldsAtKnown(m, seen, e, j);
    } else {
      HoldsAtNew(m, seen, e);
    }
  }

  lemma HoldsOne(m: Table, seen: seq<Entry>, e: Entry)
    requires Holds(m, seen)
    ensures Holds(Inserted(m, e.source, e.finding), seen + [e])
  {
    ShapedOne(m, seen, e);
    forall j | j in Keys(seen + [e])
      ensures HoldsAt(Inserted(m, e.source, e.finding), seen + [e], j)
    {
      HoldsAtOne(m, seen, e, j);
    }
  }

  lemma FromGrows(seen: seq<Entry>, source: Source, findings: seq<Finding>, i: nat)
    requires i < |findings|
    ensures seen + From(source, findings[..i + 1]) == seen + From(source, findings[..i]) + [Entry(source, findings[i])]
  {
  }

  /** One source's findings, in order. */
  method AddAll(before: Table, ghost seen: seq<Entry>, source: Source, findings: seq<Finding>) returns (m: Table)
    requires Holds(before, seen)
    ensures Holds(m, seen + From(source, findings))
  {
    m := before;
    assert seen + From(source, findings[..0]) == seen;
    hide Holds, HoldsAt, KeyOf, From;
    for i := 0 to |findings|
      invariant Holds(m, seen + From(source, findings[..i]))
    {
      var f := findings[i];
      ghost var entries := seen + From(source, findings[..i]);
      HoldsShaped(m, entries);
      HoldsOne(m, entries, Entry(source, f));
      FromGrows(seen, source, findings, i);
      m := Insert(m, source, f);
    }
    assert findings[..|findings|] == findings;
  }

  lemma HoldsShaped(m: Table, seen: seq<Entry>)
    requires Holds(m, seen)
    ensures Shaped(m)
  {
  }

  /** The body of each of the three loops. */
  method Insert(before: Table, source: Source, f: Finding) returns (m: Table)
    requires Shaped(before)
    ensures m == Inserted(before, source, f)
  {
    m := before;
    var nk := NormalizeKey(f.key);
    assert nk in m.merged.Keys <==> nk in m.sourceSet.Keys;
    if nk in m.merged {
      var existing := m.merged[nk];
      match source {
        case Deterministic =>
          existing := existing.(deterministicEvidence := existing.deterministicEvidence + f.deterministicEvidence);
        case Semantic => existing := existing.(semanticEvidence := existing.semanticEvidence + f.semanticEvidence);
        case Host => existing := existing.(hostEvidence := existing.hostEvidence + f.hostEvidence);
      }
      m := m.(merged := m.merged[nk := existing]);
    } else {
      var opened0 := f.(key := nk, deterministicEvidence := [], semanticEvidence := [], hostEvidence := [], sources := []);
      match source {
        case Deterministic => opened0 := opened0.(deterministicEvidence := f.deterministicEvidence);
        case Semantic => opened0 := opened0.(semanticEvidence := f.semanticEvidence);
        case Host => opened0 := opened0.(hostEvidence := f.hostEvidence);
      }
      m := Table(m.order + [nk], m.merged[nk := opened0], m.sourceSet[nk := []]);
    }
    m := m.(sourceSet := m.sourceSet[nk := Add(m.sourceSet[nk], source)]);
    if nk !in before.merged {
      assert [] + Own(source, f) == Own(source, f);
      assert Add([], source) == [source];
      assert m.sourceSet == before.sourceSet[nk := [source]];
      assert m.merged[nk] == Opened(f, source, nk);
    }
  }

  lemma OrderLength(m: Table, seen: seq<Entry>)
    requires Holds(m, seen)
    ensures |m.order| == |MergedAll(seen)|
  {
  }

  lemma RuledAt(m: Table, seen: seq<Entry>, i: nat)
    requires Holds(m, seen) && i < |m.order| && |m.order| == |MergedAll(seen)|
    ensures m.order[i] in m.merged && m.order[i] in m.sourceSet
    ensures Ruled(m.merged[m.order[i]], m.sourceSet[m.order[i]]) == MergedAll(seen)[i]
  {
    FirstsIn(Keys(seen), i);
    assert HoldsAt(m, seen, m.order[i]);
    hide Gathered, Sources, Keys, Firsts;
  }

  predicate RulesTo(m: Table, i: nat, f: Finding)
    requires i < |m.order|
  {
    m.order[i] in m.merged && m.order[i] in m.sourceSet && Ruled(m.merged[m.order[i]], m.sourceSet[m.order[i]]) == f
  }

  lemma AllRuled(m: Table, seen: seq<Entry>)
    requires Holds(m, seen)
    ensures |m.order| == |MergedAll(seen)| && forall i :: 0 <= i < |m.order| ==> RulesTo(m, i, MergedAll(seen)[i])
  {
    OrderLength(m, seen);
    hide MergedAll, Holds, Ruled;
    forall i | 0 <= i < |m.order|
      ensures RulesTo(m, i, MergedAll(seen)[i])
    {
      RuledAt(m, seen, i);
    }
  }

  /** The confidence rules over the finished table, in insertion order. */
  method Rule(m: Table, ghost target: seq<Finding>) returns (out: seq<Finding>)
    requires |m.order| == |target| && forall i :: 0 <= i < |m.order| ==> RulesTo(m, i, target[i])
    ensures out == target
  {
    hide Ruled;
    out := [];
    for i := 0 to |m.order|
      invariant out == target[..i]
    {
      assert RulesTo(m, i, target[i]);
      var finding := RuleOne(m.merged[m.order[i]], m.sourceSet[m.order[i]]);
      out := out + [finding];
    }
  }

  method RuleOne(f: Finding, sources: seq<Source>) returns (finding: Finding)
    ensures finding == Ruled(f, sources)
  {
    finding := f.(sources := sources);
    if |sources| >= 2 {
      finding := finding.(confidence := High, disputed := false);
    } else {
      finding := finding.(disputed := true);
    }
  }

  /** The three-way merge. */
  method MergeThreeWay(deterministic: seq<Finding>, semantic: seq<Finding>, host: seq<Finding>)
    returns (out: seq<Finding>)
    ensures out == MergedAll(Stream(deterministic, semantic, host))
    ensures forall i :: 0 <= i < |out| ==>
              && out[i].deterministicEvidence == Collected(deterministic, out[i].key, (f: Finding) => f.deterministicEvidence)
              && out[i].semanticEvidence == Collected(semantic, out[i].key, (f: Finding) => f.semanticEvidence)
              && out[i].hostEvidence == Collected(host, out[i].key, (f: Finding) => f.hostEvidence)
  {
    var m := Table([], map[], map[]);
    assert Holds(m, []);
    hide Holds, MergedAll;
    m := AddAll(m, [], Deterministic, deterministic);
    m := AddAll(m, [] + From(Deterministic, deterministic), Semantic, semantic);
    m := AddAll(m, [] + From(Deterministic, deterministic) + From(Semantic, semantic), Host, host);
    assert [] + From(Deterministic, deterministic) == From(Deterministic, deterministic);
    ghost var seen := Stream(deterministic, semantic, host);
    AllRuled(m, seen);
    out := Rule(m, MergedAll(seen));
    forall i | 0 <= i < |out|
      ensures out[i].deterministicEvidence == Collected(deterministic, out[i].key, (f: Finding) => f.deterministicEvidence)
      ensures out[i].semanticEvidence == Collected(semantic, out[i].key, (f: Finding) => f.semanticEvidence)
      ensures out[i].hostEvidence == Collected(host, out[i].key, (f: Finding) => f.hostEvidence)
    {
      EvidenceIsCollected(deterministic, semantic, host, i);
    }
  }

  // ---- the counts ----

  datatype Stats = Stats(
    deterministic: nat,
    semantic: nat,
    host: nat,
    agreed: nat,
    disputed: nat,
    adjudicated: nat,
    highConfidence: nat,
    mediumConfidence: nat,
    lowConfidence: nat)

  /** `findings.filter(p).length`. */
  function Count(findings: seq<Finding>, p: Finding -> bool): (n: nat)
    ensures n <= |findings|
  {
    if findings == [] then 0
    else Count(findings[..|findings| - 1], p) + if p(findings[|findings| - 1]) then 1 else 0
  }

  function KeySet(findings: seq<Finding>): set<string> {
    set i | 0 <= i < |findings| :: KeyOf(findings[i])
  }

  method UniqueKeyCount(findings: seq<Finding>) returns (n: nat)
    ensures n == |KeySet(findings)|
  {
    var seen: set<string> := {};
    for i := 0 to |findings|
      invariant seen == KeySet(findings[..i])
    {
      assert findings[..i + 1] == findings[..i] + [findings[i]];
      KeySetGrows(findings[..i], findings[i]);
      seen := seen + {NormalizeKey(findings[i].key)};
    }
    assert findings[..|findings|] == findings;
    n := |seen|;
  }

  lemma KeySetGrows(findings: seq<Finding>, f: Finding)
    ensures KeySet(findings + [f]) == KeySet(findings) + {KeyOf(f)}
  {
    hide KeyOf;
    var more := findings + [f];
    forall k | k in KeySet(findings) + {KeyOf(f)}
      ensures k in KeySet(more)
    {
      if k == KeyOf(f) {
        assert more[|findings|] == f;
      } else {
        var i :| 0 <= i < |findings| && KeyOf(findings[i]) == k;
        assert more[i] == findings[i];
      }
    }
  }

  function ComputeThreeWayStats(deterministic: seq<Finding>, semantic: seq<Finding>, host: seq<Finding>,
                                merged: seq<Finding>): Stats {
    Stats(
      |KeySet(deterministic)|, |KeySet(semantic)|, |KeySet(host)|,
      Count(merged, (f: Finding) => |f.sources| >= 2),
      Count(merged, (f: Finding) => f.disputed),
      0,
      Count(merged, (f: Finding) => f.confidence == High),
      Count(merged, (f: Finding) => f.confidence == Medium),
      Count(merged, (f: Finding) => f.confidence == Low))
  }

  lemma {:induction false} CountIs(findings: seq<Finding>, p: Finding -> bool, where: set<int>)
    requires forall i :: i in where <==> 0 <= i < |findings| && p(findings[i])
    ensures Count(findings, p) == |where|
  {
    if findings != [] {
      var n := |findings| - 1;
      assert forall i :: 0 <= i < n ==> findings[..n][i] == findings[i];
      CountIs(findings[..n], p, where - {n});
    } else {
      assert forall i :: i !in where;
    }
  }

  /** Each count is the number of merged findings that are what its name says. */
  lemma StatsSay(deterministic: seq<Finding>, semantic: seq<Finding>, host: seq<Finding>, merged: seq<Finding>)
    ensures var stats := ComputeThreeWayStats(deterministic, semantic, host, merged);
            && stats.agreed == |set i | 0 <= i < |merged| && |merged[i].sources| >= 2|
            && stats.disputed == |set i | 0 <= i < |merged| && merged[i].disputed|
            && stats.highConfidence == |set i | 0 <= i < |merged| && merged[i].confidence == High|
            && stats.mediumConfidence == |set i | 0 <= i < |merged| && merged[i].confidence == Medium|
            && stats.lowConfidence == |set i | 0 <= i < |merged| && merged[i].confidence == Low|
            && stats.adjudicated == 0
  {
    var stats := ComputeThreeWayStats(deterministic, semantic, host, merged);
    hide Count, KeySet, NormalizeKey;
    var agreed := set i | 0 <= i < |merged| && |merged[i].sources| >= 2;
    assert stats.agreed == |agreed| by { CountIs(merged, (f: Finding) => |f.sources| >= 2, agreed); }
    var disputed := set i | 0 <= i < |merged| && merged[i].disputed;
    assert stats.disputed == |disputed| by { CountIs(merged, (f: Finding) => f.disputed, disputed); }
    var high := set i | 0 <= i < |merged| && merged[i].confidence == High;
    assert stats.highConfidence == |high| by { CountIs(merged, (f: Finding) => f.confidence == High, high); }
    var medium := set i | 0 <= i < |merged| && merged[i].confidence == Medium;
    assert stats.mediumConfidence == |medium| by { CountIs(merged, (f: Finding) => f.confidence == Medium, medium); }
    var low := set i | 0 <= i < |merged| && merged[i].confidence == Low;
    assert stats.lowConfidence == |low| by { CountIs(merged, (f: Finding) => f.confidence == Low, low); }
    hide *;
  }

  ghost predicate Brings(seen: seq<Entry>, source: Source, k: string) {
    exists i :: 0 <= i < |seen| && seen[i].source == source && KeyOf(seen[i].finding) == k
  }

  lemma BringsConcat(a: seq<Entry>, b: seq<Entry>, source: Source, k: string)
    ensures Brings(a + b, source, k) <==> Brings(a, source, k) || Brings(b, source, k)
  {
    hide KeyOf;
    var both := a + b;
    if Brings(a, source, k) {
      var i :| 0 <= i < |a| && a[i].source == source && KeyOf(a[i].finding) == k;
      assert both[i] == a[i];
    }
    if Brings(b, source, k) {
      var i :| 0 <= i < |b| && b[i].source == source && KeyOf(b[i].finding) == k;
      assert both[|a| + i] == b[i];
    }
  }

  lemma {:induction false} TagsSay(seen: seq<Entry>, k: string, source: Source)
    ensures source in Tags(seen, k) <==> Brings(seen, source, k)
  {
    hide KeyOf;
    if seen != [] {
      var n := |seen| - 1;
      TagsSay(seen[..n], k, source);
      BringsConcat(seen[..n], [seen[n]], source, k);
      assert seen[..n] + [seen[n]] == seen;
      assert Brings([seen[n]], source, k) <==> seen[n].source == source && KeyOf(seen[n].finding) == k by {
        assert [seen[n]][0] == seen[n];
      }
    }
  }

  /** A merged finding names exactly the inputs that have its key. */
  lemma SourcesSay(seen: seq<Entry>, k: string, source: Source)
    ensures source in Sources(seen, k) <==> Brings(seen, source, k)
  {
    TagsSay(seen, k, source);
    assert source in Elements(Sources(seen, k)) <==> source in Elements(Tags(seen, k));
  }

  /** A finding is disputed exactly when one source has it, and then keeps its confidence; so a finding
      of medium confidence is always disputed. */
  lemma SingleSourceIsDisputed(seen: seq<Entry>, i: nat)
    requires i < |MergedAll(seen)|
    ensures var f := MergedAll(seen)[i];
            && |f.sources| >= 1
            && (f.disputed <==> |f.sources| == 1)
            && (f.confidence == Medium ==> f.disputed)
            && (!f.disputed ==> f.confidence == High)
  {
    var k := Firsts(Keys(seen))[i];
    FirstsIn(Keys(seen), i);
    var e := seen[FirstAt(Keys(seen), k)];
    SourcesSay(seen, k, e.source);
    hide Gathered, Sources;
  }

  lemma {:induction false} CountBoth(findings: seq<Finding>, p: Finding -> bool, q: Finding -> bool)
    requires forall i :: 0 <= i < |findings| ==> p(findings[i]) != q(findings[i])
    ensures Count(findings, p) + Count(findings, q) == |findings|
  {
    if findings != [] {
      CountBoth(findings[..|findings| - 1], p, q);
    }
  }

  /** Every merged finding is agreed or disputed, and never both. */
  lemma AgreedOrDisputed(deterministic: seq<Finding>, semantic: seq<Finding>, host: seq<Finding>)
    ensures var merged := MergedAll(Stream(deterministic, semantic, host));
            var stats := ComputeThreeWayStats(deterministic, semantic, host, merged);
            stats.agreed + stats.disputed == |merged|
  {
    var seen := Stream(deterministic, semantic, host);
    var merged := MergedAll(seen);
    forall i | 0 <= i < |merged|
      ensures (|merged[i].sources| >= 2) != merged[i].disputed
    {
      SingleSourceIsDisputed(seen, i);
    }
    hide MergedAll;
    CountBoth(merged, (f: Finding) => |f.sources| >= 2, (f: Finding) => f.disputed);
  }

  /** With distinct keys, as many findings satisfy `p` as there are keys that do. */
  lemma {:induction false} CountKeys(findings: seq<Finding>, keys: seq<string>, p: Finding -> bool, chosen: set<string>)
    requires |keys| == |findings| && NoDuplicates(keys) && chosen <= Elements(keys)
    requires forall i :: 0 <= i < |findings| ==> (p(findings[i]) <==> keys[i] in chosen)
    ensures Count(findings, p) == |chosen|
  {
    if findings != [] {
      var n := |findings| - 1;
      assert Elements(keys) == Elements(keys[..n]) + {keys[n]};
      assert keys[n] !in Elements(keys[..n]);
      CountKeys(findings[..n], keys[..n], p, chosen - {keys[n]});
    }
  }

  /** Each per-source count is the number of merged findings that name the source. */
  lemma PerSourceCount(seen: seq<Entry>, source: Source, findings: seq<Finding>)
    requires forall k :: k in KeySet(findings) <==> Brings(seen, source, k)
    ensures Count(MergedAll(seen), (f: Finding) => source in f.sources) == |KeySet(findings)|
  {
    var keys, merged := Firsts(Keys(seen)), MergedAll(seen);
    forall i | 0 <= i < |merged|
      ensures source in merged[i].sources <==> keys[i] in KeySet(findings)
    {
      FirstsIn(Keys(seen), i);
      SourcesSay(seen, keys[i], source);
      hide Sources, Gathered, KeyOf;
    }
    hide KeyOf, MergedAll;
    forall k | k in KeySet(findings)
      ensures k in Elements(keys)
    {
      var i :| 0 <= i < |seen| && seen[i].source == source && KeyOf(seen[i].finding) == k;
      assert Keys(seen)[i] in Elements(Keys(seen));
    }
    CountKeys(merged, keys, (f: Finding) => source in f.sources, KeySet(findings));
  }

  lemma BringsFrom(from: Source, findings: seq<Finding>, source: Source, k: string)
    ensures Brings(From(from, findings), source, k) <==> source == from && k in KeySet(findings)
  {
    hide KeyOf;
    if source == from && k in KeySet(findings) {
      var i :| 0 <= i < |findings| && KeyOf(findings[i]) == k;
      assert From(from, findings)[i].source == source && KeyOf(From(from, findings)[i].finding) == k;
    }
  }

  /** An input brings exactly the keys of its own findings. */
  lemma StreamBrings(deterministic: seq<Finding>, semantic: seq<Finding>, host: seq<Finding>, k: string)
    ensures var seen := Stream(deterministic, semantic, host);
            && (Brings(seen, Deterministic, k) <==> k in KeySet(deterministic))
            && (Brings(seen, Semantic, k) <==> k in KeySet(semantic))
            && (Brings(seen, Host, k) <==> k in KeySet(host))
  {
    var d, s, h := From(Deterministic, deterministic), From(Semantic, semantic), From(Host, host);
    forall source: Source
      ensures Brings(d + s + h, source, k) <==> Brings(d, source, k) || Brings(s, source, k) || Brings(h, source, k)
    {
      BringsConcat(d, s, source, k);
      BringsConcat(d + s, h, source, k);
    }
    hide Brings, From;
    forall source: Source
      ensures Brings(d, source, k) <==> source == Deterministic && k in KeySet(deterministic)
      ensures Brings(s, source, k) <==> source == Semantic && k in KeySet(semantic)
      ensures Brings(h, source, k) <==> source == Host && k in KeySet(host)
    {
      BringsFrom(Deterministic, deterministic, source, k);
      BringsFrom(Semantic, semantic, source, k);
      BringsFrom(Host, host, source, k);
    }
  }

  /** The per-source counts count the merged findings that name the source. */
  lemma PerSourceStats(deterministic: seq<Finding>, semantic: seq<Finding>, host: seq<Finding>)
    ensures var merged := MergedAll(Stream(deterministic, semantic, host));
            var stats := ComputeThreeWayStats(deterministic, semantic, host, merged);
            && stats.deterministic == Count(merged, (f: Finding) => Deterministic in f.sources)
            && stats.semantic == Count(merged, (f: Finding) => Semantic in f.sources)
            && stats.host == Count(merged, (f: Finding) => Host in f.sources)
  {
    var seen := Stream(deterministic, semantic, host);
    hide Stream, MergedAll;
    forall k
      ensures Brings(seen, Deterministic, k) <==> k in KeySet(deterministic)
      ensures Brings(seen, Semantic, k) <==> k in KeySet(semantic)
      ensures Brings(seen, Host, k) <==> k in KeySet(host)
    {
      StreamBrings(deterministic, semantic, host, k);
    }
    PerSourceCount(seen, Deterministic, deterministic);
    PerSourceCount(seen, Semantic, semantic);
    PerSourceCount(seen, Host, host);
  }

  function Unvalidated(findings: seq<Finding>): nat {
    Count(findings, (f: Finding) => f.confidence.Unvalidated?)
  }

  lemma {:induction false} CountConfidences(findings: seq<Finding>)
    ensures Count(findings, (f: Finding) => f.confidence == High) + Count(findings, (f: Finding) => f.confidence == Medium)
            + Count(findings, (f: Finding) => f.confidence == Low) + Unvalidated(findings) == |findings|
  {
    if findings != [] {
      CountConfidences(findings[..|findings| - 1]);
    }
  }
}
