/** The per-chunk index, the prefilter over it, and the exact record filter. */
module Index {
  import opened Core
  import opened Windows

  datatype IndexQuery = IndexQuery(
    since: Option<Instant>,
    until: Option<Instant>,
    service: Option<Text>,
    level: Option<Text>,
    host: Option<Text>,
    keyword: Option<Text>)

  // ---- Tokens ----

  /** The words of `text` that are indexed: lower-cased pieces of 2 to 64 bytes. */
  ghost function TextTokens(libs: Libs, text: Text): set<Text> {
    set p | p in libs.pieces(text) && p != [] && 2 <= |libs.lower(p)| <= 64 :: libs.lower(p)
  }

  ghost function Tokens(libs: Libs, v: Value): set<Text> {
    match v
    case String(s) => TextTokens(libs, s)
    case Array(items) => set i, t | 0 <= i < |items| && t in Tokens(libs, items[i]) :: t
    case Object(fields) => set i, t | 0 <= i < |fields| && t in Tokens(libs, fields[i].1) :: t
    case _ => {}
  }

  ghost function ItemTokens(libs: Libs, items: seq<Value>): set<Text> {
    set i, t | 0 <= i < |items| && t in Tokens(libs, items[i]) :: t
  }

  ghost function FieldTokens(libs: Libs, fields: seq<(Text, Value)>): set<Text> {
    set i, t | 0 <= i < |fields| && t in Tokens(libs, fields[i].1) :: t
  }

  lemma ItemTokensSnoc(libs: Libs, items: seq<Value>, v: Value)
    ensures ItemTokens(libs, items + [v]) == ItemTokens(libs, items) + Tokens(libs, v)
  {
    hide Tokens;
    var more := items + [v];
    assert more[|items|] == v;
    assert forall i :: 0 <= i < |items| ==> more[i] == items[i];
  }

  lemma FieldTokensSnoc(libs: Libs, fields: seq<(Text, Value)>, f: (Text, Value))
    ensures FieldTokens(libs, fields + [f]) == FieldTokens(libs, fields) + Tokens(libs, f.1)
  {
    hide Tokens;
    var more := fields + [f];
    assert more[|fields|] == f;
    assert forall i :: 0 <= i < |fields| ==> more[i] == fields[i];
  }

  /** `tokenize_into`. */
  method TokenizeInto(libs: Libs, text: Text, into: set<Text>) returns (out: set<Text>)
    ensures out == into + TextTokens(libs, text)
  {
    var pieces := libs.pieces(text);
    out := into;
    for i := 0 to |pieces|
      invariant out == into + set p | p in pieces[..i] && p != [] && 2 <= |libs.lower(p)| <= 64 :: libs.lower(p)
    {
      assert pieces[..i + 1] == pieces[..i] + [pieces[i]];
      if pieces[i] == [] {
        continue;
      }
      var token := libs.lower(pieces[i]);
      if 2 <= |token| <= 64 {
        out := out + {token};
      }
    }
    assert pieces[..|pieces|] == pieces;
  }

  /** `collect_tokens`. */
  method CollectTokens(libs: Libs, v: Value, into: set<Text>) returns (out: set<Text>)
    ensures out == into + Tokens(libs, v)
    decreases v
  {
    out := into;
    match v {
      case String(s) =>
        out := TokenizeInto(libs, s, out);
      case Array(items) =>
        for i := 0 to |items|
          invariant out == into + ItemTokens(libs, items[..i])
        {
          ItemTokensSnoc(libs, items[..i], items[i]);
          assert items[..i + 1] == items[..i] + [items[i]];
          out := CollectTokens(libs, items[i], out);
        }
        assert items[..|items|] == items;
      case Object(fields) =>
        for i := 0 to |fields|
          invariant out == into + FieldTokens(libs, fields[..i])
        {
          FieldTokensSnoc(libs, fields[..i], fields[i]);
          assert fields[..i + 1] == fields[..i] + [fields[i]];
          out := CollectTokens(libs, fields[i].1, out);
        }
        assert fields[..|fields|] == fields;
      case _ =>
    }
  }

  // ---- build_index ----

  function MinTime(records: seq<LogRecord>): Instant
    requires records != []
  {
    var last := records[|records| - 1].timestamp;
    if |records| == 1 then last
    else if MinTime(records[..|records| - 1]) <= last then MinTime(records[..|records| - 1]) else last
  }

  function MaxTime(records: seq<LogRecord>): Instant
    requires records != []
  {
    var last := records[|records| - 1].timestamp;
    if |records| == 1 then last
    else if MaxTime(records[..|records| - 1]) >= last then MaxTime(records[..|records| - 1]) else last
  }

  lemma {:induction false} TimesSpan(records: seq<LogRecord>)
    requires records != []
    ensures forall r :: r in records ==> MinTime(records) <= r.timestamp <= MaxTime(records)
  {
    var n := |records| - 1;
    assert records == records[..n] + [records[n]];
    if n > 0 {
      TimesSpan(records[..n]);
    }
  }

  ghost function Levels(records: seq<LogRecord>): set<Text> {
    set r | r in records && r.level.Some? :: r.level.value
  }

  ghost function Hosts(records: seq<LogRecord>): set<Text> {
    set r | r in records && r.host.Some? :: r.host.value
  }

  ghost function Keywords(libs: Libs, records: seq<LogRecord>): set<Text> {
    set r, t | r in records && t in Tokens(libs, r.raw) :: t
  }

  ghost function IndexOf(libs: Libs, chunk: ChunkRef, records: seq<LogRecord>): ServiceWindowIndex {
    ServiceWindowIndex(
      chunk.service, chunk.window,
      if records == [] then 0 else MinTime(records),
      if records == [] then 0 else MaxTime(records),
      Levels(records), Hosts(records), Keywords(libs, records), chunk)
  }

  /** `build_index`: one pass over the records. */
  method BuildIndex(libs: Libs, chunk: ChunkRef, records: seq<LogRecord>) returns (ix: ServiceWindowIndex)
    ensures ix == IndexOf(libs, chunk, records)
  {
    var levels: set<Text>, hosts: set<Text>, keywords: set<Text> := {}, {}, {};
    var minTs: Option<Instant>, maxTs: Option<Instant> := None, None;
    for i := 0 to |records|
      invariant levels == Levels(records[..i])
      invariant hosts == Hosts(records[..i])
      invariant keywords == Keywords(libs, records[..i])
      invariant minTs == if i == 0 then None else Some(MinTime(records[..i]))
      invariant maxTs == if i == 0 then None else Some(MaxTime(records[..i]))
    {
      var record := records[i];
      ghost var before, after := records[..i], records[..i + 1];
      assert after == before + [record] && after[..i] == before;
      minTs := Some(if minTs.Some? && minTs.value <= record.timestamp then minTs.value else record.timestamp);
      maxTs := Some(if maxTs.Some? && maxTs.value >= record.timestamp then maxTs.value else record.timestamp);
      if record.level.Some? {
        levels := levels + {record.level.value};
      }
      if record.host.Some? {
        hosts := hosts + {record.host.value};
      }
      keywords := CollectTokens(libs, record.raw, keywords);
      assert keywords == Keywords(libs, after);
      assert levels == Levels(after);
      assert hosts == Hosts(after);
    }
    assert records[..|records|] == records;
    ix := ServiceWindowIndex(
      chunk.service, chunk.window,
      if minTs.Some? then minTs.value else 0,
      if maxTs.Some? then maxTs.value else 0,
      levels, hosts, keywords, chunk);
  }

  // ---- Filters ----

  ghost predicate MightMatch(libs: Libs, ix: ServiceWindowIndex, q: IndexQuery) {
    && (q.service.Some? ==> ix.service == q.service.value)
    && (q.since.Some? ==> ix.maxTimestamp >= q.since.value)
    && (q.until.Some? ==> ix.minTimestamp <= q.until.value)
    && (q.level.Some? ==> q.level.value in ix.levels)
    && (q.host.Some? ==> q.host.value in ix.hosts)
    && (q.keyword.Some? ==> TextTokens(libs, q.keyword.value) <= ix.keywords)
  }

  /** `might_match`. */
  method CheckMightMatch(libs: Libs, ix: ServiceWindowIndex, q: IndexQuery) returns (m: bool)
    ensures m <==> MightMatch(libs, ix, q)
  {
    if q.service.Some? && ix.service != q.service.value { return false; }
    if q.since.Some? && ix.maxTimestamp < q.since.value { return false; }
    if q.until.Some? && ix.minTimestamp > q.until.value { return false; }
    if q.level.Some? && q.level.value !in ix.levels { return false; }
    if q.host.Some? && q.host.value !in ix.hosts { return false; }
    if q.keyword.Some? {
      var tokens := TokenizeInto(libs, q.keyword.value, {});
      if tokens != {} && !(tokens <= ix.keywords) { return false; }
    }
    return true;
  }

  ghost predicate RecordMatches(libs: Libs, r: LogRecord, q: IndexQuery) {
    && (q.service.Some? ==> r.service == q.service.value)
    && TimeMatches(r.timestamp, q.since, q.until)
    && (q.level.Some? ==> r.level == q.level)
    && (q.host.Some? ==> r.host == q.host)
    && (q.keyword.Some? ==> TextTokens(libs, q.keyword.value) <= Tokens(libs, r.raw))
  }

  /** `record_matches`. */
  method CheckRecordMatches(libs: Libs, r: LogRecord, q: IndexQuery) returns (m: bool)
    ensures m <==> RecordMatches(libs, r, q)
  {
    if q.service.Some? && r.service != q.service.value { return false; }
    if q.since.Some? && r.timestamp < q.since.value { return false; }
    if q.until.Some? && r.timestamp > q.until.value { return false; }
    if q.level.Some? && r.level != q.level { return false; }
    if q.host.Some? && r.host != q.host { return false; }
    if q.keyword.Some? {
      var queryTokens := TokenizeInto(libs, q.keyword.value, {});
      if queryTokens != {} {
        var recordTokens := CollectTokens(libs, r.raw, {});
        if !(queryTokens <= recordTokens) { return false; }
      }
    }
    return true;
  }

  /** The prefilter never rejects the index of a chunk that holds a matching record. */
  lemma PrefilterIsConservative(libs: Libs, chunk: ChunkRef, records: seq<LogRecord>, r: LogRecord, q: IndexQuery)
    requires r in records && r.service == chunk.service
    requires RecordMatches(libs, r, q)
    ensures MightMatch(libs, IndexOf(libs, chunk, records), q)
  {
    TimesSpan(records);
    assert Tokens(libs, r.raw) <= Keywords(libs, records);
  }

  // ---- What the filters mean, from the records alone ----

  /** Following array positions and object fields from `v` along `path` leads to the string `s`. */
  predicate StandsIn(v: Value, s: Text, path: seq<nat>)
    decreases path
  {
    if path == [] then v == String(s)
    else
      match v
      case Array(items) => path[0] < |items| && StandsIn(items[path[0]], s, path[1..])
      case Object(fields) => path[0] < |fields| && StandsIn(fields[path[0]].1, s, path[1..])
      case _ => false
  }

  /** `t` is the lower case of an alphanumeric run of `s`, and 2 to 64 bytes long. */
  ghost predicate WordOf(libs: Libs, s: Text, t: Text) {
    exists p :: p in libs.pieces(s) && p != [] && t == libs.lower(p) && 2 <= |t| <= 64
  }

  /** `t` is a word of a string that stands anywhere in `v`. */
  ghost predicate WordIn(libs: Libs, v: Value, t: Text) {
    exists s, path :: StandsIn(v, s, path) && WordOf(libs, s, t)
  }

  lemma WordDeeper(libs: Libs, v: Value, i: nat, x: Value, t: Text)
    requires WordIn(libs, x, t)
    requires (v.Array? && i < |v.items| && x == v.items[i]) || (v.Object? && i < |v.fields| && x == v.fields[i].1)
    ensures WordIn(libs, v, t)
  {
    hide WordOf;
    var s, path :| StandsIn(x, s, path) && WordOf(libs, s, t);
    assert ([i] + path)[1..] == path;
    assert StandsIn(v, s, [i] + path);
  }

  lemma WordBelow(libs: Libs, v: Value, t: Text) returns (i: nat, x: Value)
    requires WordIn(libs, v, t) && !v.String?
    ensures (v.Array? && i < |v.items| && x == v.items[i]) || (v.Object? && i < |v.fields| && x == v.fields[i].1)
    ensures WordIn(libs, x, t)
  {
    hide WordOf;
    var s, path :| StandsIn(v, s, path) && WordOf(libs, s, t);
    i := path[0];
    x := if v.Array? then v.items[i] else v.fields[i].1;
    assert StandsIn(x, s, path[1..]);
  }

  /** The tokens of a JSON value are exactly the words of the strings that stand in it. */
  lemma {:induction false} TokensAreWords(libs: Libs, v: Value, t: Text)
    ensures t in Tokens(libs, v) <==> WordIn(libs, v, t)
    decreases v
  {
    match v {
      case String(s) =>
        if t in Tokens(libs, v) { assert StandsIn(v, s, []) && WordOf(libs, s, t); }
      case Array(items) =>
        forall i | 0 <= i < |items| ensures t in Tokens(libs, items[i]) <==> WordIn(libs, items[i], t) {
          TokensAreWords(libs, items[i], t);
        }
        hide WordIn;
        if i :| 0 <= i < |items| && t in Tokens(libs, items[i]) { WordDeeper(libs, v, i, items[i], t); }
        if WordIn(libs, v, t) { var i, x := WordBelow(libs, v, t); }
      case Object(fields) =>
        forall i | 0 <= i < |fields| ensures t in Tokens(libs, fields[i].1) <==> WordIn(libs, fields[i].1, t) {
          TokensAreWords(libs, fields[i].1, t);
        }
        hide WordIn;
        if i :| 0 <= i < |fields| && t in Tokens(libs, fields[i].1) { WordDeeper(libs, v, i, fields[i].1, t); }
        if WordIn(libs, v, t) { var i, x := WordBelow(libs, v, t); }
      case _ =>
        if WordIn(libs, v, t) { var i, x := WordBelow(libs, v, t); }
    }
  }

  /** The record is of the service, not before `since` nor after `until`, has the level and the host, and
      each word of the keyword stands somewhere in its raw line. */
  ghost predicate AskedFor(libs: Libs, r: LogRecord, q: IndexQuery) {
    && (q.service.Some? ==> r.service == q.service.value)
    && (q.since.Some? ==> q.since.value <= r.timestamp)
    && (q.until.Some? ==> r.timestamp <= q.until.value)
    && (q.level.Some? ==> r.level == Some(q.level.value))
    && (q.host.Some? ==> r.host == Some(q.host.value))
    && (q.keyword.Some? ==> forall t :: WordOf(libs, q.keyword.value, t) ==> WordIn(libs, r.raw, t))
  }

  lemma TextTokensAreWords(libs: Libs, s: Text, t: Text)
    ensures t in TextTokens(libs, s) <==> WordOf(libs, s, t)
  {
  }

  lemma MatchesIffAskedFor(libs: Libs, r: LogRecord, q: IndexQuery)
    ensures RecordMatches(libs, r, q) <==> AskedFor(libs, r, q)
  {
    hide Tokens, TextTokens, WordOf, WordIn;
    if q.keyword.Some? {
      forall t
        ensures t in TextTokens(libs, q.keyword.value) <==> WordOf(libs, q.keyword.value, t)
        ensures t in Tokens(libs, r.raw) <==> WordIn(libs, r.raw, t)
      {
        TextTokensAreWords(libs, q.keyword.value, t);
        TokensAreWords(libs, r.raw, t);
      }
    }
  }

  /** Each filter by itself is met by some record. */
  ghost predicate EachMetBySome(libs: Libs, service: Text, records: seq<LogRecord>, q: IndexQuery) {
    && (q.service.Some? ==> service == q.service.value)
    && (q.since.Some? ==> exists r :: r in records && q.since.value <= r.timestamp)
    && (q.until.Some? ==> exists r :: r in records && r.timestamp <= q.until.value)
    && (q.level.Some? ==> exists r :: r in records && r.level == Some(q.level.value))
    && (q.host.Some? ==> exists r :: r in records && r.host == Some(q.host.value))
    && (q.keyword.Some? ==>
          forall t :: WordOf(libs, q.keyword.value, t) ==> exists r :: r in records && WordIn(libs, r.raw, t))
  }

  lemma {:induction false} TimesAttained(records: seq<LogRecord>)
    requires records != []
    ensures exists r :: r in records && r.timestamp == MinTime(records)
    ensures exists r :: r in records && r.timestamp == MaxTime(records)
  {
    var n := |records| - 1;
    assert records[n] in records;
    if n > 0 {
      TimesAttained(records[..n]);
      assert forall r :: r in records[..n] ==> r in records;
      var low :| low in records[..n] && low.timestamp == MinTime(records[..n]);
      var high :| high in records[..n] && high.timestamp == MaxTime(records[..n]);
      assert low in records && high in records;
    }
  }

  lemma SpanAdmits(records: seq<LogRecord>, t: Instant)
    requires records != []
    ensures MaxTime(records) >= t <==> exists r :: r in records && t <= r.timestamp
    ensures MinTime(records) <= t <==> exists r :: r in records && r.timestamp <= t
  {
    TimesSpan(records);
    TimesAttained(records);
  }

  lemma KeywordsAreWords(libs: Libs, records: seq<LogRecord>, t: Text)
    ensures t in Keywords(libs, records) <==> exists r :: r in records && WordIn(libs, r.raw, t)
  {
    hide Tokens, WordIn;
    forall r: LogRecord ensures t in Tokens(libs, r.raw) <==> WordIn(libs, r.raw, t) { TokensAreWords(libs, r.raw, t); }
  }

  /** The prefilter keeps an index exactly when each filter by itself is met by some record of its chunk. */
  lemma PrefilterIsEachBySome(libs: Libs, chunk: ChunkRef, records: seq<LogRecord>, q: IndexQuery)
    requires records != []
    ensures MightMatch(libs, IndexOf(libs, chunk, records), q) <==> EachMetBySome(libs, chunk.service, records, q)
  {
    hide Tokens, TextTokens, WordOf, WordIn, MinTime, MaxTime, Keywords;
    if q.since.Some? { SpanAdmits(records, q.since.value); }
    if q.until.Some? { SpanAdmits(records, q.until.value); }
    if q.keyword.Some? {
      forall t
        ensures t in TextTokens(libs, q.keyword.value) <==> WordOf(libs, q.keyword.value, t)
        ensures t in Keywords(libs, records) <==> exists r :: r in records && WordIn(libs, r.raw, t)
      {
        TextTokensAreWords(libs, q.keyword.value, t);
        KeywordsAreWords(libs, records, t);
      }
    }
  }

  /** From the earliest to the latest of the records. */
  ghost predicate SpansExactly(records: seq<LogRecord>, low: Instant, high: Instant) {
    && (exists r :: r in records && r.timestamp == low)
    && (exists r :: r in records && r.timestamp == high)
    && (forall r :: r in records ==> low <= r.timestamp <= high)
  }

  /** The index says what its chunk holds, no more and no less. */
  lemma IndexDescribes(libs: Libs, chunk: ChunkRef, records: seq<LogRecord>)
    ensures var ix := IndexOf(libs, chunk, records);
      && ix.service == chunk.service && ix.window == chunk.window && ix.chunk == chunk
      && (forall l :: l in ix.levels <==> exists r :: r in records && r.level == Some(l))
      && (forall h :: h in ix.hosts <==> exists r :: r in records && r.host == Some(h))
      && (forall t :: t in ix.keywords <==> exists r :: r in records && WordIn(libs, r.raw, t))
      && (records == [] ==> ix.minTimestamp == ix.maxTimestamp == 0)
      && (records != [] ==> SpansExactly(records, ix.minTimestamp, ix.maxTimestamp))
  {
    hide WordIn, Keywords, MinTime, MaxTime;
    forall t ensures t in Keywords(libs, records) <==> exists r :: r in records && WordIn(libs, r.raw, t) {
      KeywordsAreWords(libs, records, t);
    }
    if records != [] {
      TimesSpan(records);
      TimesAttained(records);
    }
  }
}
