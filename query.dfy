/**
 * `URLSearchParams` as the recommendations handler uses it: an ordered list of
 * name/value pairs, built from an initial record, updated with `set`, copied,
 * and serialised with `toString`.
 */
module QueryParams {
  import opened Wrappers
  import opened Text

  type Param = (string, string)

  function Names(e: seq<Param>): (ns: seq<string>)
    ensures |ns| == |e|
    ensures forall i :: 0 <= i < |e| ==> ns[i] == e[i].0
  {
    seq(|e|, i requires 0 <= i < |e| => e[i].0)
  }

  /** `get(name)`: the value of the first pair with that name. */
  function Lookup(e: seq<Param>, name: string): (r: Option<string>)
    ensures r.None? <==> name !in Names(e)
  {
    if |e| == 0 then None
    else if e[0].0 == name then Some(e[0].1)
    else Lookup(e[1..], name)
  }

  predicate DistinctNames(e: seq<Param>)
  {
    forall i, j :: 0 <= i < j < |e| ==> e[i].0 != e[j].0
  }

  /** The pairs whose name differs from `name`, in order. */
  function Without(e: seq<Param>, name: string): (r: seq<Param>)
    ensures name !in Names(r)
    ensures name !in Names(e) ==> r == e
  {
    if |e| == 0 then []
    else if e[0].0 == name then Without(e[1..], name)
    else [e[0]] + Without(e[1..], name)
  }

  function Rewrite(e: seq<Param>, name: string, value: string): seq<Param>
  {
    if |e| == 0 then []
    else if e[0].0 == name then [(name, value)] + Without(e[1..], name)
    else [e[0]] + Rewrite(e[1..], name, value)
  }

  /**
   * `set(name, value)`: when a pair with that name exists, the first one takes
   * the new value and the later ones are removed; otherwise the pair is appended.
   */
  function SetEntry(e: seq<Param>, name: string, value: string): seq<Param>
  {
    if name in Names(e) then Rewrite(e, name, value) else e + [(name, value)]
  }

  lemma {:induction false} LookupWithout(e: seq<Param>, name: string, other: string)
    requires other != name
    ensures Lookup(Without(e, name), other) == Lookup(e, other)
  {
    if |e| > 0 {
      LookupWithout(e[1..], name, other);
    }
  }

  lemma {:induction false} LookupRewrite(e: seq<Param>, name: string, value: string, other: string)
    ensures Lookup(Rewrite(e, name, value), name) == (if name in Names(e) then Some(value) else None)
    ensures other != name ==> Lookup(Rewrite(e, name, value), other) == Lookup(e, other)
  {
    if |e| > 0 {
      if e[0].0 == name {
        if other != name {
          LookupWithout(e[1..], name, other);
        }
      } else {
        LookupRewrite(e[1..], name, value, other);
        assert Names(e) == [e[0].0] + Names(e[1..]);
      }
    }
  }

  lemma {:induction false} LookupAppend(a: seq<Param>, b: seq<Param>, name: string)
    ensures Lookup(a + b, name) == if name in Names(a) then Lookup(a, name) else Lookup(b, name)
  {
    if |a| > 0 {
      assert (a + b)[1..] == a[1..] + b;
      LookupAppend(a[1..], b, name);
      assert Names(a) == [a[0].0] + Names(a[1..]);
    } else {
      assert a + b == b;
    }
  }

  /** After `set`, `get` of that name yields the new value, and every other name is unaffected. */
  lemma SetThenLookup(e: seq<Param>, name: string, value: string, other: string)
    ensures Lookup(SetEntry(e, name, value), name) == Some(value)
    ensures other != name ==> Lookup(SetEntry(e, name, value), other) == Lookup(e, other)
  {
    if name in Names(e) {
      LookupRewrite(e, name, value, other);
    } else {
      LookupAppend(e, [(name, value)], name);
      LookupAppend(e, [(name, value)], other);
    }
  }

  /**
   * On a list with distinct names that already holds `name`, `set` replaces that
   * one pair in place: same length, same names in the same positions, every other
   * pair unchanged.
   */
  lemma {:induction false} SetReplacesInPlace(e: seq<Param>, name: string, value: string)
    requires DistinctNames(e)
    requires name in Names(e)
    ensures |SetEntry(e, name, value)| == |e|
    ensures forall j :: 0 <= j < |e| ==>
      SetEntry(e, name, value)[j] == (if e[j].0 == name then (name, value) else e[j])
  {
    RewriteInPlace(e, name, value);
  }

  lemma {:induction false} RewriteInPlace(e: seq<Param>, name: string, value: string)
    requires DistinctNames(e)
    ensures |Rewrite(e, name, value)| == |e|
    ensures forall j :: 0 <= j < |e| ==>
      Rewrite(e, name, value)[j] == (if e[j].0 == name then (name, value) else e[j])
  {
    if |e| > 0 {
      assert DistinctNames(e[1..]);
      RewriteInPlace(e[1..], name, value);
      if e[0].0 == name {
        assert name !in Names(e[1..]);
      }
    }
  }

  /** `set` of a new name appends it; the names stay distinct. */
  lemma SetAppends(e: seq<Param>, name: string, value: string)
    requires DistinctNames(e)
    requires name !in Names(e)
    ensures SetEntry(e, name, value) == e + [(name, value)]
    ensures DistinctNames(SetEntry(e, name, value))
  {
  }

  /** One `name=value` token of `toString`, both sides form-encoded. */
  function EncodePair(p: Param): string
  {
    FormEncode(p.0) + "=" + FormEncode(p.1)
  }

  function EncodePairs(e: seq<Param>): (ts: seq<string>)
    ensures |ts| == |e|
    ensures forall i :: 0 <= i < |e| ==> ts[i] == EncodePair(e[i])
  {
    seq(|e|, i requires 0 <= i < |e| => EncodePair(e[i]))
  }

  /** `toString`: `name=value` pairs in order, form-encoded, joined by `&`. */
  function Serialize(e: seq<Param>): string
  {
    Join(EncodePairs(e), "&")
  }

  /** A query whose first two pairs need no escaping serialises with those two pairs, as written, in front. */
  lemma SerializeStartsWith(q: seq<Param>)
    requires |q| >= 2
    requires FormEncode(q[0].0) == q[0].0 && FormEncode(q[0].1) == q[0].1
    requires FormEncode(q[1].0) == q[1].0 && FormEncode(q[1].1) == q[1].1
    ensures q[0].0 + "=" + q[0].1 + "&" + q[1].0 + "=" + q[1].1 <= Serialize(q)
  {
    var ts := EncodePairs(q);
    JoinStartsWithTwo(ts, "&");
    assert ts[0] + "&" + ts[1] == q[0].0 + "=" + q[0].1 + "&" + q[1].0 + "=" + q[1].1;
  }

  /**
   * How a receiver reads one `&`-separated token (the form-urlencoded parser of
   * the URL standard): the name is what precedes the first `=`, the value is the
   * rest (empty when there is no `=`), both decoded.
   */
  function DecodePair(token: string): Param
  {
    var kv := Split(token, '=');
    (Unescape(kv[0], true), Unescape(Join(kv[1..], "="), true))
  }

  /** The form-urlencoded parser on a token list: empty tokens are skipped. */
  function DecodeTokens(tokens: seq<string>): seq<Param>
  {
    if |tokens| == 0 then []
    else (if tokens[0] == "" then [] else [DecodePair(tokens[0])]) + DecodeTokens(tokens[1..])
  }

  /** The form-urlencoded parser: split on `&`, skip empty tokens, decode each. */
  function DecodeQuery(s: string): seq<Param>
  {
    DecodeTokens(Split(s, '&'))
  }

  /** A token holds exactly one `=`, between the encoded name and the encoded value. */
  lemma EncodePairSplits(p: Param)
    ensures '&' !in EncodePair(p)
    ensures Split(EncodePair(p), '=') == [FormEncode(p.0), FormEncode(p.1)]
  {
    FormEncodeAvoids(p.0, '&');
    FormEncodeAvoids(p.1, '&');
    FormEncodeAvoids(p.0, '=');
    FormEncodeAvoids(p.1, '=');
    SplitAtFirst(FormEncode(p.0), FormEncode(p.1), '=');
    SplitNoSeparator(FormEncode(p.1), '=');
    assert EncodePair(p) == FormEncode(p.0) + ['='] + FormEncode(p.1);
  }

  /** Every token decodes to the pair it encodes. */
  lemma DecodeEncodePair(p: Param)
    ensures DecodePair(EncodePair(p)) == p
  {
    EncodePairSplits(p);
    var kv := Split(EncodePair(p), '=');
    assert kv[1..] == [FormEncode(p.1)];
    UnescapeEscape(p.0, true);
    UnescapeEscape(p.1, true);
  }

  lemma {:induction false} DecodeEncodedTokens(e: seq<Param>)
    ensures DecodeTokens(EncodePairs(e)) == e
  {
    if |e| > 0 {
      var ts := EncodePairs(e);
      assert ts[1..] == EncodePairs(e[1..]);
      assert ts[0] != "" by {
        assert |ts[0]| >= 1;
      }
      DecodeEncodePair(e[0]);
      DecodeEncodedTokens(e[1..]);
      assert e == [e[0]] + e[1..];
    }
  }

  /** `toString` loses nothing: parsing the serialised query gives back every pair, in order. */
  lemma SerializeDecodes(e: seq<Param>)
    ensures DecodeQuery(Serialize(e)) == e
  {
    var ts := EncodePairs(e);
    if |e| == 0 {
      assert Serialize(e) == "";
      assert Split("", '&') == [""];
    } else {
      forall i | 0 <= i < |ts|
        ensures '&' !in ts[i]
      {
        EncodePairSplits(e[i]);
      }
      SplitJoin(ts, '&');
      DecodeEncodedTokens(e);
    }
  }

  /** A `URLSearchParams` object: its pairs are updated in place by `Set`. */
  class SearchParams {
    var entries: seq<Param>

    /** `new URLSearchParams(init)`, from a record or by copying another object's pairs. */
    constructor (init: seq<Param>)
      ensures entries == init
    {
      entries := init;
    }

    method Set(name: string, value: string)
      modifies this
      ensures entries == SetEntry(old(entries), name, value)
    {
      if name in Names(entries) {
        entries := Rewrite(entries, name, value);
      } else {
        entries := entries + [(name, value)];
      }
    }
  }
}
