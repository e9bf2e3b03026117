/**
 * Python's `urllib.parse.urlencode` over an insertion-ordered dict, and the
 * `"?".join([base_url, query])` that turns it into a URL.  Each value is first
 * turned into text with `str`, then key and value are form-encoded and written
 * as `key=value`; pairs are joined with `&`.
 *
 * `ParseQuery` is the partner: it splits on `&` and `=` and decodes, and it
 * gives back the pairs that were encoded.
 */
module Query {
  import opened Wrappers
  import opened Text
  import opened FormEncoding

  /** A parameter value as the scraper passes it: a Python `int` or a `str`. */
  datatype Value = Int(i: int) | Str(s: string)

  /** `str(v)`. */
  function ToText(v: Value): (r: string)
    ensures v.Str? ==> r == v.s
    ensures v.Int? ==> IsIntText(r) && IntValue(r) == v.i
  {
    match v
    case Int(i) => IntToDecimalRoundTrip(i); IntToDecimal(i)
    case Str(s) => s
  }

  /** One `key=value` pair of the query. */
  function EncodePair(key: string, value: Value): (r: string)
    ensures '&' !in r && '#' !in r && ' ' !in r && '?' !in r
    ensures multiset(r)['='] == 1
  {
    var k, v := QuotePlus(key), QuotePlus(ToText(value));
    assert multiset(k + "=" + v)['='] == multiset(k)['='] + multiset("=")['='] + multiset(v)['='];
    k + "=" + v
  }

  function EncodePairs(ps: seq<(string, Value)>): (r: seq<string>)
    ensures |r| == |ps|
    ensures forall i :: 0 <= i < |r| ==> r[i] == EncodePair(ps[i].0, ps[i].1)
  {
    if |ps| == 0 then [] else [EncodePair(ps[0].0, ps[0].1)] + EncodePairs(ps[1..])
  }

  /** `urlencode(params)`. */
  function UrlEncode(ps: seq<(string, Value)>): (q: string)
    ensures '#' !in q && ' ' !in q && '?' !in q
    ensures multiset(q)['&'] == if |ps| == 0 then 0 else |ps| - 1
  {
    var pieces := EncodePairs(ps);
    var q := Join(pieces, '&');
    assert '#' !in q && ' ' !in q && '?' !in q by {
      JoinAvoids(pieces, '&', '#');
      JoinAvoids(pieces, '&', ' ');
      JoinAvoids(pieces, '&', '?');
    }
    q
  }

  /** `"?".join([base, query])`. */
  function BuildUrl(base: string, ps: seq<(string, Value)>): (r: string)
    ensures |r| == |base| + 1 + |UrlEncode(ps)|
    ensures r[..|base|] == base && r[|base|] == '?'
    ensures '?' !in r[|base| + 1..]
  {
    JoinPair(base, UrlEncode(ps), '?');
    Join([base, UrlEncode(ps)], '?')
  }

  /**
   * A URL built from a base without `?` splits at its only `?` into that base
   * and the encoded query: no parameter value can spill into the path.
   */
  lemma BuildUrlParts(base: string, ps: seq<(string, Value)>)
    requires '?' !in base
    ensures Split(BuildUrl(base, ps), '?') == [base, UrlEncode(ps)]
    ensures BuildUrl(base, ps) == base + "?" + UrlEncode(ps)
  {
    JoinPair(base, UrlEncode(ps), '?');
    SplitJoin([base, UrlEncode(ps)], '?');
  }

  /** A URL built from a base without `?` reads back into that base and the text of every parameter. */
  lemma BuildUrlReadsBack(base: string, ps: seq<(string, Value)>)
    requires '?' !in base
    ensures var parts := Split(BuildUrl(base, ps), '?');
            |parts| == 2 && parts[0] == base && ParseQuery(parts[1]) == Some(Texts(ps))
  {
    BuildUrlParts(base, ps);
    ParseUrlEncode(ps);
  }

  lemma {:induction false} JoinAvoids(parts: seq<string>, sep: char, c: char)
    requires c != sep
    requires forall i :: 0 <= i < |parts| ==> c !in parts[i]
    ensures c !in Join(parts, sep)
    decreases |parts|
  {
    if |parts| > 1 {
      JoinAvoids(parts[1..], sep, c);
    }
  }

  /** The `key=value` pieces as plain text, before any escaping. */
  function PlainPairs(ps: seq<(string, Value)>): (r: seq<string>)
    ensures |r| == |ps|
    ensures forall i :: 0 <= i < |ps| ==> r[i] == ps[i].0 + "=" + ToText(ps[i].1)
  {
    seq(|ps|, i requires 0 <= i < |ps| => ps[i].0 + "=" + ToText(ps[i].1))
  }

  /** Keys and values that need no escaping appear in the query exactly as written. */
  lemma EncodePairsPlain(ps: seq<(string, Value)>)
    requires forall i :: 0 <= i < |ps| ==> AllUnreserved(ps[i].0) && AllUnreserved(ToText(ps[i].1))
    ensures EncodePairs(ps) == PlainPairs(ps)
  {
    forall i | 0 <= i < |ps| ensures EncodePairs(ps)[i] == PlainPairs(ps)[i] {
      QuotePlusUnreserved(ps[i].0);
      QuotePlusUnreserved(ToText(ps[i].1));
    }
  }

  // ---------------------------------------------------------------------
  // The parser

  /** The text of every value, in order: what a reader of the query recovers. */
  function Texts(ps: seq<(string, Value)>): (r: seq<(string, string)>)
    ensures |r| == |ps|
    ensures forall i :: 0 <= i < |r| ==> r[i] == (ps[i].0, ToText(ps[i].1))
  {
    if |ps| == 0 then [] else [(ps[0].0, ToText(ps[0].1))] + Texts(ps[1..])
  }

  function ParsePair(piece: string): Option<(string, string)>
  {
    var kv := Split(piece, '=');
    if |kv| != 2 then None
    else match (UnquotePlus(kv[0]), UnquotePlus(kv[1]))
      case (Some(k), Some(v)) => Some((k, v))
      case _ => None
  }

  function ParsePieces(pieces: seq<string>): Option<seq<(string, string)>>
  {
    if |pieces| == 0 then Some([])
    else match (ParsePair(pieces[0]), ParsePieces(pieces[1..]))
      case (Some(p), Some(rest)) => Some([p] + rest)
      case _ => None
  }

  /** Reads a query string back into decoded pairs; None when it is not well formed. */
  function ParseQuery(q: string): Option<seq<(string, string)>>
  {
    if |q| == 0 then Some([]) else ParsePieces(Split(q, '&'))
  }

  lemma ParseEncodedPair(key: string, value: Value)
    ensures ParsePair(EncodePair(key, value)) == Some((key, ToText(value)))
  {
    var k, v := QuotePlus(key), QuotePlus(ToText(value));
    JoinPair(k, v, '=');
    SplitJoin([k, v], '=');
    QuotePlusRoundTrip(key);
    QuotePlusRoundTrip(ToText(value));
  }

  lemma {:induction false} ParseEncodedPairs(ps: seq<(string, Value)>)
    ensures ParsePieces(EncodePairs(ps)) == Some(Texts(ps))
    decreases |ps|
  {
    if |ps| > 0 {
      ParseEncodedPair(ps[0].0, ps[0].1);
      assert EncodePairs(ps)[1..] == EncodePairs(ps[1..]);
      ParseEncodedPairs(ps[1..]);
    }
  }

  /**
   * Reading an encoded query gives back every key with the text of its value,
   * in the original order: no value can break out of its `key=value` slot.
   */
  lemma ParseUrlEncode(ps: seq<(string, Value)>)
    ensures ParseQuery(UrlEncode(ps)) == Some(Texts(ps))
  {
    var pieces := EncodePairs(ps);
    if |ps| > 0 {
      assert '=' in pieces[0];
      assert |UrlEncode(ps)| > 0 by {
        if |ps| == 1 { } else { assert UrlEncode(ps) == pieces[0] + "&" + Join(pieces[1..], '&'); }
      }
      SplitJoin(pieces, '&');
      ParseEncodedPairs(ps);
    }
  }
}
