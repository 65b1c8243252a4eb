/**
 * The anonymiser of the published vote-tool metrics (`scripts/package_dp_metrics.py`). Every metrics
 * record, a dict read from one JSON line, loses its `pid` and `pref_use` and has a non-empty
 * `pattern` replaced by the first 12 hex digits of its SHA-256 digest. The records are changed in
 * place, one after the other; SHA-256 is a parameter.
 */
module Metrics {
  import opened Options
  import opened Dicts
  import opened Seqs
  import opened JsonValues

  predicate IsHexDigit(c: char) {
    '0' <= c <= '9' || 'a' <= c <= 'f'
  }

  /** A SHA-256 `hexdigest()`: 64 lower-case hex digits. */
  type Digest = s: string | |s| == 64 && forall i :: 0 <= i < |s| ==> IsHexDigit(s[i])
    witness seq(64, _ => '0')

  /** How many hex digits of the digest replace a pattern. */
  const PatternDigits := 12

  /** The keys that identify a person and are dropped. */
  const Identifiers := ["pid", "pref_use"]

  /** The record's dict without its identifiers (`pop("pid", None)`, `pop("pref_use", None)`). */
  function WithoutIdentifiers(d: Dict<Json>): Dict<Json> {
    Remove(Remove(d, "pid"), "pref_use")
  }

  /** The replacement of a pattern: the first 12 hex digits of its digest. */
  function HashedPattern(pattern: string, sha256: string -> Digest): string {
    sha256(pattern)[..PatternDigits]
  }

  /**
   * The anonymised record, or None when processing it raises: a value that is not a dict has no
   * `pop`, and a non-empty `pattern` that is not a string cannot be encoded.
   */
  function Anonymized(v: Json, sha256: string -> Digest): Option<Json>
  {
    if !v.JObj? then None
    else
      var d := WithoutIdentifiers(v.fields);
      var pattern := Field(d, "pattern", JNull);
      if !Truthy(pattern) then Some(JObj(d))
      else if !pattern.JStr? then None
      else Some(JObj(Put(d, "pattern", JStr(HashedPattern(pattern.s, sha256)))))
  }

  /** The record as the loop leaves it, also when it raises: a dict has lost its identifiers by then. */
  function Processed(v: Json, sha256: string -> Digest): Json
  {
    match Anonymized(v, sha256)
    case Some(w) => w
    case None => if v.JObj? then JObj(WithoutIdentifiers(v.fields)) else v
  }

  /**
   * An anonymised record has neither identifier; a pattern that was non-empty is 12 hex digits of
   * its digest, an empty or missing one is kept as it was; every other key keeps its value and the
   * keys keep their order.
   */
  lemma {:induction false} AnonymizedSpec(v: Json, sha256: string -> Digest)
    requires Anonymized(v, sha256).Some?
    ensures v.JObj? && Anonymized(v, sha256).value.JObj?
    ensures var d := Anonymized(v, sha256).value.fields;
      && "pid" !in Keys(d) && "pref_use" !in Keys(d)
      && Keys(d) == Keys(WithoutIdentifiers(v.fields))
      && (forall k :: k in Keys(d) <==> k in Keys(v.fields) && k !in Identifiers)
      && (forall k :: k !in Identifiers && k != "pattern" ==> Get(d, k) == Get(v.fields, k))
      && var p := Field(v.fields, "pattern", JNull);
      && (Truthy(p) ==> p.JStr? && Get(d, "pattern") == Some(JStr(HashedPattern(p.s, sha256))))
      && (!Truthy(p) ==> Get(d, "pattern") == Get(v.fields, "pattern"))
  {
    AnonymizedFields(v, sha256);
    AnonymizedKeys(v, sha256);
    AnonymizedValues(v, sha256);
  }

  /** The anonymised dict is the dict without identifiers, with the pattern replaced when it is non-empty. */
  lemma AnonymizedFields(v: Json, sha256: string -> Digest)
    requires Anonymized(v, sha256).Some?
    ensures v.JObj? && Anonymized(v, sha256).value.JObj?
    ensures var w := WithoutIdentifiers(v.fields);
      var p := Field(v.fields, "pattern", JNull);
      && (Truthy(p) ==> (p.JStr? && "pattern" in Keys(w)
        && Anonymized(v, sha256).value.fields == Put(w, "pattern", JStr(HashedPattern(p.s, sha256)))))
      && (!Truthy(p) ==> Anonymized(v, sha256).value.fields == w)
  {
    WithoutIdentifiersGet(v.fields, "pattern");
  }

  lemma AnonymizedKeys(v: Json, sha256: string -> Digest)
    requires Anonymized(v, sha256).Some?
    ensures v.JObj? && Anonymized(v, sha256).value.JObj?
    ensures var d := Anonymized(v, sha256).value.fields;
      && Keys(d) == Keys(WithoutIdentifiers(v.fields))
      && "pid" !in Keys(d) && "pref_use" !in Keys(d)
      && (forall k :: k in Keys(d) <==> k in Keys(v.fields) && k !in Identifiers)
  {
    AnonymizedFields(v, sha256);
    var w := WithoutIdentifiers(v.fields);
    assert Keys(Anonymized(v, sha256).value.fields) == Keys(w);
    forall k ensures k in Keys(w) <==> k in Keys(v.fields) && k !in Identifiers {
      WithoutIdentifiersGet(v.fields, k);
    }
  }

  lemma AnonymizedValues(v: Json, sha256: string -> Digest)
    requires Anonymized(v, sha256).Some?
    ensures v.JObj? && Anonymized(v, sha256).value.JObj?
    ensures var d := Anonymized(v, sha256).value.fields;
      && (forall k :: k !in Identifiers && k != "pattern" ==> Get(d, k) == Get(v.fields, k))
      && var p := Field(v.fields, "pattern", JNull);
      && (Truthy(p) ==> p.JStr? && Get(d, "pattern") == Some(JStr(HashedPattern(p.s, sha256))))
      && (!Truthy(p) ==> Get(d, "pattern") == Get(v.fields, "pattern"))
  {
    AnonymizedFields(v, sha256);
    forall k | k !in Identifiers && k != "pattern" ensures Get(Anonymized(v, sha256).value.fields, k) == Get(v.fields, k) {
      AnonymizedOther(v, sha256, k);
    }
    WithoutIdentifiersGet(v.fields, "pattern");
  }

  lemma AnonymizedOther(v: Json, sha256: string -> Digest, k: string)
    requires Anonymized(v, sha256).Some? && k !in Identifiers && k != "pattern"
    ensures v.JObj? && Anonymized(v, sha256).value.JObj?
    ensures Get(Anonymized(v, sha256).value.fields, k) == Get(v.fields, k)
  {
    AnonymizedFields(v, sha256);
    WithoutIdentifiersGet(v.fields, k);
  }

  /** Dropping the identifiers removes exactly those two keys and keeps every other value. */
  lemma WithoutIdentifiersGet(d: Dict<Json>, k: string)
    ensures Get(WithoutIdentifiers(d), k) == if k in Identifiers then None else Get(d, k)
  {
    RemoveSpec(d, "pid");
    RemoveSpec(Remove(d, "pid"), "pref_use");
  }

  /** A hashed pattern is always 12 lower-case hex digits. */
  lemma HashedPatternShape(pattern: string, sha256: string -> Digest)
    ensures |HashedPattern(pattern, sha256)| == PatternDigits
    ensures forall i :: 0 <= i < PatternDigits ==> IsHexDigit(HashedPattern(pattern, sha256)[i])
  {
    var digest := sha256(pattern);
    forall i | 0 <= i < PatternDigits ensures IsHexDigit(HashedPattern(pattern, sha256)[i]) {
      assert HashedPattern(pattern, sha256)[i] == digest[i];
    }
  }

  /** Processing raises exactly for a record that is not a dict or whose non-empty pattern is not a string. */
  lemma {:induction false} AnonymizedFails(v: Json, sha256: string -> Digest)
    ensures Anonymized(v, sha256).None? <==>
      !v.JObj? || (Truthy(Field(v.fields, "pattern", JNull)) && !Field(v.fields, "pattern", JNull).JStr?)
  {
    if v.JObj? {
      WithoutIdentifiersGet(v.fields, "pattern");
      assert Field(WithoutIdentifiers(v.fields), "pattern", JNull) == Field(v.fields, "pattern", JNull);
    }
  }

  /** Processing a dict leaves a dict without either identifier, also when the pattern step raises. */
  lemma {:induction false} ProcessedDropsIdentifiers(v: Json, sha256: string -> Digest)
    requires v.JObj?
    ensures Processed(v, sha256).JObj?
    ensures "pid" !in Keys(Processed(v, sha256).fields) && "pref_use" !in Keys(Processed(v, sha256).fields)
  {
    if Anonymized(v, sha256).Some? {
      AnonymizedSpec(v, sha256);
    } else {
      WithoutIdentifiersGet(v.fields, "pid");
      WithoutIdentifiersGet(v.fields, "pref_use");
    }
  }

  /**
   * When no record raises, the loop's list is the all-or-nothing map of the anonymiser: same length,
   * same order, each record anonymised.
   */
  lemma {:induction false} AnonymizeAllSpec(vs: seq<Json>, sha256: string -> Digest)
    requires AllSome(v => Anonymized(v, sha256), vs)
    ensures MapAll(v => Anonymized(v, sha256), vs) == Some(MapSeq(v => Processed(v, sha256), vs))
    ensures |MapSeq(v => Processed(v, sha256), vs)| == |vs|
    ensures forall i :: 0 <= i < |vs| ==> Anonymized(vs[i], sha256) == Some(MapSeq(v => Processed(v, sha256), vs)[i])
  {
    MapSeqIndex(v => Processed(v, sha256), vs);
    AllSomeIndex(v => Anonymized(v, sha256), vs);
    var r := MapAll(v => Anonymized(v, sha256), vs);
    assert r.Some?;
    assert r.value == MapSeq(v => Processed(v, sha256), vs);
  }

  /** The values in the list after `anonymize` has stopped on record `k`, which raised. */
  function StoppedAt(vs: seq<Json>, k: nat, sha256: string -> Digest): seq<Json>
    requires k < |vs|
  {
    MapSeq(v => Processed(v, sha256), vs[..k + 1]) + vs[k + 1..]
  }

  /**
   * After a raise on record `k` the list keeps its length; the records up to `k` are processed, so
   * every dict among them has lost its identifiers, and the later ones are as they were.
   */
  lemma {:induction false} StoppedAtSpec(vs: seq<Json>, k: nat, sha256: string -> Digest)
    requires k < |vs|
    ensures |StoppedAt(vs, k, sha256)| == |vs|
    ensures forall i :: 0 <= i <= k ==> StoppedAt(vs, k, sha256)[i] == Processed(vs[i], sha256)
    ensures forall i :: k < i < |vs| ==> StoppedAt(vs, k, sha256)[i] == vs[i]
  {
    MapSeqIndex(v => Processed(v, sha256), vs[..k + 1]);
  }


  /**
   * The list of metrics records that `load_records` builds and `anonymize` changes. Every record is a
   * dict of its own, so changing one in place is reassigning its position in the list.
   */
  class RecordList {
    var records: seq<Json>

    /**
     * `load_records`: the decoded value of every line that decodes, in line order; `parse` stands
     * for `json.loads`, None when it raises.
     */
    constructor Load(lines: seq<string>, parse: string -> Option<Json>)
      ensures records == FlatMap(l => Loaded(l, parse), lines)
    {
      var recs: seq<Json> := [];
      var i := 0;
      while i < |lines|
        invariant 0 <= i <= |lines|
        invariant recs == FlatMap(l => Loaded(l, parse), lines[..i])
      {
        FlatMapSnoc(l => Loaded(l, parse), lines, i);
        var v := parse(lines[i]);
        if v.Some? {
          recs := recs + [v.value];
        }
        i := i + 1;
      }
      assert lines[..i] == lines;
      records := recs;
    }

    /**
     * `anonymize`: every record changed in place, in list order. When a record raises, the records
     * before it are anonymised, it has lost its identifiers if it is a dict, and the rest are untouched.
     */
    method Anonymize(sha256: string -> Digest) returns (ok: bool)
      modifies this
      ensures |records| == |old(records)|
      ensures ok <==> AllSome(v => Anonymized(v, sha256), old(records))
      ensures ok ==> records == MapSeq(v => Processed(v, sha256), old(records))
      ensures !ok ==> exists k :: (0 <= k < |records|
        && AllSome(v => Anonymized(v, sha256), old(records)[..k])
        && Anonymized(old(records)[k], sha256).None?
        && records == StoppedAt(old(records), k, sha256))
    {
      ghost var before := records;
      var i := 0;
      while i < |records|
        invariant 0 <= i <= |records| == |before|
        invariant AllSome(v => Anonymized(v, sha256), before[..i])
        invariant records == MapSeq(v => Processed(v, sha256), before[..i]) + before[i..]
      {
        var done := AnonymizeAt(i, sha256);
        AllSomeSnoc(v => Anonymized(v, sha256), before, i);
        MapSeqSnoc(v => Processed(v, sha256), before, i);
        UpdateNext(MapSeq(v => Processed(v, sha256), before[..i]), before[i..], Processed(before[i], sha256));
        if !done {
          AllSomeStops(v => Anonymized(v, sha256), before, i + 1);
          assert records == StoppedAt(before, i, sha256);
          return false;
        }
        i := i + 1;
      }
      assert before[..i] == before;
      return true;
    }

    /** The loop body for record `i`: the two pops, then the pattern replacement. */
    method AnonymizeAt(i: nat, sha256: string -> Digest) returns (ok: bool)
      requires i < |records|
      modifies this
      ensures ok <==> Anonymized(old(records[i]), sha256).Some?
      ensures records == old(records)[i := Processed(old(records[i]), sha256)]
    {
      if !records[i].JObj? {
        return false;
      }
      var d := records[i].fields;
      d := Remove(d, "pid");
      d := Remove(d, "pref_use");
      records := records[i := JObj(d)];
      var pattern := Field(d, "pattern", JNull);
      if Truthy(pattern) {
        if !pattern.JStr? {
          return false;
        }
        records := records[i := JObj(Put(d, "pattern", JStr(sha256(pattern.s)[..PatternDigits])))];
      }
      ok := true;
    }
  }

  lemma UpdateNext<T>(done: seq<T>, rest: seq<T>, x: T)
    requires |rest| > 0
    ensures (done + rest)[|done| := x] == done + [x] + rest[1..]
  {
  }

  /** The record for a line: its decoded value, none for a line that does not decode. */
  function Loaded(line: string, parse: string -> Option<Json>): seq<Json> {
    match parse(line)
    case Some(v) => [v]
    case None => []
  }

  /** A value is loaded exactly when some line decodes to it; lines that do not decode are skipped. */
  lemma {:induction false} LoadedFrom(lines: seq<string>, parse: string -> Option<Json>, v: Json)
    ensures v in FlatMap(l => Loaded(l, parse), lines) <==> exists i :: 0 <= i < |lines| && parse(lines[i]) == Some(v)
  {
    var f := l => Loaded(l, parse);
    if v in FlatMap(f, lines) {
      FlatMapMember(f, lines, v);
      var l :| l in lines && v in f(l);
      var i :| 0 <= i < |lines| && lines[i] == l;
      assert parse(lines[i]) == Some(v);
    }
    if exists i :: 0 <= i < |lines| && parse(lines[i]) == Some(v) {
      var i :| 0 <= i < |lines| && parse(lines[i]) == Some(v);
      assert v in f(lines[i]);
      FlatMapIn(f, lines, i, v);
    }
  }

  /** At most one record per line. */
  lemma {:induction false} LoadedAtMostLines(lines: seq<string>, parse: string -> Option<Json>)
    ensures |FlatMap(l => Loaded(l, parse), lines)| <= |lines|
    decreases |lines|
  {
    if |lines| > 0 {
      LoadedAtMostLines(lines[..|lines| - 1], parse);
    }
  }
}
