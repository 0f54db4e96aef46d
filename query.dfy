/**
 * Request parameters: the plain object a façade method fills in before it
 * calls `request`, and its serialization into a query string by
 * `URLSearchParams` (the application/x-www-form-urlencoded serializer of the
 * WHATWG URL Standard, section 5.2), together with the matching parser of
 * section 5.1 that reads it back.
 */
module Query {
  import opened Wrappers
  import opened Json
  import Percent

  /**
   * A parameters object: its properties in insertion order, which is the
   * order `Object.keys`, `URLSearchParams` and `JSON.stringify` visit them.
   */
  type Params = seq<Field>

  function Keys(p: Params): (ks: seq<string>)
    ensures |ks| == |p|
    ensures forall i :: 0 <= i < |p| ==> ks[i] == p[i].key
  {
    if p == [] then [] else [p[0].key] + Keys(p[1..])
  }

  /** No property name occurs twice, as in every JavaScript object. */
  predicate UniqueKeys(p: Params) {
    p == [] || (p[0].key !in Keys(p[1..]) && UniqueKeys(p[1..]))
  }

  /** The value of property k, if the object has one. */
  function Lookup(p: Params, k: string): (r: Option<Json>)
    ensures r.Some? <==> k in Keys(p)
  {
    if p == [] then None
    else if p[0].key == k then Some(p[0].value)
    else Lookup(p[1..], k)
  }

  /**
   * The assignment `p[k] = v`: an existing property keeps its place and takes
   * the new value, a new one goes to the end.
   */
  function Put(p: Params, k: string, v: Json): Params
  {
    if p == [] then [Field(k, v)]
    else if p[0].key == k then [Field(k, v)] + p[1..]
    else [p[0]] + Put(p[1..], k, v)
  }

  /** A new name goes to the end; assigning an existing name leaves the names as they were. */
  lemma {:induction false} PutPlaces(p: Params, k: string, v: Json)
    ensures k !in Keys(p) ==> Put(p, k, v) == p + [Field(k, v)]
    ensures k in Keys(p) ==> Keys(Put(p, k, v)) == Keys(p)
  {
    if p != [] && p[0].key != k {
      PutPlaces(p[1..], k, v);
      assert Keys(p) == [p[0].key] + Keys(p[1..]);
      assert Keys(Put(p, k, v)) == [p[0].key] + Keys(Put(p[1..], k, v));
      assert p == [p[0]] + p[1..];
    } else if p != [] {
      assert Keys(Put(p, k, v)) == [k] + Keys(p[1..]);
      assert Keys(p) == [k] + Keys(p[1..]);
    }
  }

  /** After `p[k] = v`, reading k gives v and every other property is as it was. */
  lemma {:induction false} PutLookup(p: Params, k: string, v: Json, k': string)
    ensures Lookup(Put(p, k, v), k') == if k' == k then Some(v) else Lookup(p, k')
  {
    if p != [] && p[0].key != k {
      PutLookup(p[1..], k, v, k');
    }
  }

  /** Assignment adds k to the property names and no other name. */
  lemma {:induction false} PutKeys(p: Params, k: string, v: Json, x: string)
    ensures x in Keys(Put(p, k, v)) <==> x in Keys(p) || x == k
  {
    if p != [] && p[0].key != k {
      PutKeys(p[1..], k, v, x);
      assert Keys(Put(p, k, v)) == [p[0].key] + Keys(Put(p[1..], k, v));
      assert Keys(p) == [p[0].key] + Keys(p[1..]);
    } else if p != [] {
      assert Keys(Put(p, k, v)) == [k] + Keys(p[1..]);
      assert Keys(p) == [k] + Keys(p[1..]);
    }
  }

  /** Assignment keeps property names unique. */
  lemma {:induction false} PutUnique(p: Params, k: string, v: Json)
    requires UniqueKeys(p)
    ensures UniqueKeys(Put(p, k, v))
  {
    if p == [] {
      assert Put(p, k, v) == [Field(k, v)];
      assert Put(p, k, v)[1..] == [];
    } else if p[0].key != k {
      PutUnique(p[1..], k, v);
      PutKeys(p[1..], k, v, p[0].key);
      assert Put(p, k, v)[1..] == Put(p[1..], k, v);
    } else {
      assert Put(p, k, v)[1..] == p[1..];
    }
  }

  // ---------------------------------------------------------------------
  // Building a parameters object from optional arguments

  /** A string argument, which JavaScript treats as absent when it is empty or undefined. */
  function OptStr(s: string): Option<Json>
  {
    if s == "" then None else Some(JStr(s))
  }

  /** A boolean option, which is only written when it is true. */
  function OptFlag(b: bool): Option<Json>
  {
    if b then Some(JBool(true)) else None
  }

  /** `if (value) p[k] = value`: the assignment happens only for a truthy argument. */
  function SetIfGiven(p: Params, k: string, value: Option<Json>): Params
  {
    if value.Some? then Put(p, k, value.value) else p
  }

  /**
   * On a new name, SetIfGiven appends the property exactly when the argument
   * was given, and reading the name back gives the argument.
   */
  lemma SetIfGivenNew(p: Params, k: string, value: Option<Json>)
    requires k !in Keys(p)
    ensures Keys(SetIfGiven(p, k, value)) == Keys(p) + (if value.Some? then [k] else [])
    ensures Lookup(SetIfGiven(p, k, value), k) == value
    ensures forall k' :: k' != k ==> Lookup(SetIfGiven(p, k, value), k') == Lookup(p, k')
  {
    if value.Some? {
      var r := Put(p, k, value.value);
      PutPlaces(p, k, value.value);
      assert Keys(r) == Keys(p) + [k];
      forall k' | true
        ensures Lookup(r, k') == if k' == k then Some(value.value) else Lookup(p, k')
      {
        PutLookup(p, k, value.value, k');
      }
    }
  }

  // ---------------------------------------------------------------------
  // Joining and splitting on a separator

  function Join(parts: seq<string>, sep: char): string
  {
    if parts == [] then ""
    else if |parts| == 1 then parts[0]
    else parts[0] + [sep] + Join(parts[1..], sep)
  }

  /** The position of the first c in s. */
  function IndexOf(s: string, c: char): (i: nat)
    requires c in s
    ensures i < |s| && s[i] == c && c !in s[..i]
  {
    if s[0] == c then 0
    else
      assert c in s[1..];
      var i := 1 + IndexOf(s[1..], c);
      assert s[..i] == [s[0]] + s[1..][..i - 1];
      i
  }

  /** Splits s at every sep; the result has at least one part. */
  function Split(s: string, sep: char): (parts: seq<string>)
    ensures |parts| >= 1
    decreases |s|
  {
    if sep !in s then [s]
    else
      var i := IndexOf(s, sep);
      [s[..i]] + Split(s[i + 1..], sep)
  }

  lemma IndexOfJoined(a: string, sep: char, b: string)
    requires sep !in a
    ensures sep in a + [sep] + b && IndexOf(a + [sep] + b, sep) == |a|
  {
    var s := a + [sep] + b;
    assert s[|a|] == sep;
  }

  /** Splitting undoes joining, as long as no part holds the separator. */
  lemma {:induction false} SplitJoin(parts: seq<string>, sep: char)
    requires |parts| >= 1
    requires forall i :: 0 <= i < |parts| ==> sep !in parts[i]
    ensures Split(Join(parts, sep), sep) == parts
  {
    if |parts| > 1 {
      var a := parts[0];
      var b := Join(parts[1..], sep);
      var s := a + [sep] + b;
      IndexOfJoined(a, sep, b);
      assert s[..|a|] == a;
      assert s[|a| + 1..] == b;
      SplitJoin(parts[1..], sep);
      assert [a] + parts[1..] == parts;
    }
  }

  // ---------------------------------------------------------------------
  // The query string

  /** `name=value` for one property; the value goes through `String(value)`. */
  function Piece(f: Field): string
  {
    Percent.FormEncode(f.key) + "=" + Percent.FormEncode(ToDisplayString(f.value))
  }

  function Pieces(p: Params): (ps: seq<string>)
    ensures |ps| == |p|
    ensures forall i :: 0 <= i < |p| ==> ps[i] == Piece(p[i])
  {
    if p == [] then [] else [Piece(p[0])] + Pieces(p[1..])
  }

  /** `new URLSearchParams(p).toString()`: the pieces joined with `&`. */
  function SerializeQuery(p: Params): string
  {
    Join(Pieces(p), '&')
  }

  /** The (name, value) pairs a query string stands for. */
  function Pairs(p: Params): (r: seq<(string, string)>)
    ensures |r| == |p|
    ensures forall i :: 0 <= i < |p| ==> r[i] == (p[i].key, ToDisplayString(p[i].value))
  {
    if p == [] then [] else [(p[0].key, ToDisplayString(p[0].value))] + Pairs(p[1..])
  }

  /** Reads one `name=value` piece; without `=` the whole piece is the name. */
  function ParsePiece(piece: string): Option<(string, string)>
  {
    var (name, value) := if '=' in piece then
        var i := IndexOf(piece, '=');
        (piece[..i], piece[i + 1..])
      else (piece, "");
    match (Percent.FormDecode(name), Percent.FormDecode(value))
    case (Some(n), Some(v)) => Some((n, v))
    case _ => None
  }

  /** Reads the pieces in order, skipping empty ones. */
  function ParsePieces(ps: seq<string>): Option<seq<(string, string)>>
  {
    if ps == [] then Some([])
    else if ps[0] == "" then ParsePieces(ps[1..])
    else
      match (ParsePiece(ps[0]), ParsePieces(ps[1..]))
      case (Some(pair), Some(rest)) => Some([pair] + rest)
      case _ => None
  }

  /** The application/x-www-form-urlencoded parser: split on `&`, then read each piece. */
  function ParseQuery(s: string): Option<seq<(string, string)>>
  {
    ParsePieces(Split(s, '&'))
  }

  lemma PieceParses(f: Field)
    ensures Piece(f) != ""
    ensures '&' !in Piece(f)
    ensures ParsePiece(Piece(f)) == Some((f.key, ToDisplayString(f.value)))
  {
    var k := Percent.FormEncode(f.key);
    var v := Percent.FormEncode(ToDisplayString(f.value));
    Percent.FormHasNoSeparators(f.key);
    Percent.FormHasNoSeparators(ToDisplayString(f.value));
    IndexOfJoined(k, '=', v);
    var s := k + "=" + v;
    assert s[..|k|] == k;
    assert s[|k| + 1..] == v;
    Percent.FormRoundTrip(f.key);
    Percent.FormRoundTrip(ToDisplayString(f.value));
  }

  lemma {:induction false} PiecesParse(p: Params)
    ensures ParsePieces(Pieces(p)) == Some(Pairs(p))
  {
    if p != [] {
      PieceParses(p[0]);
      assert Pieces(p)[1..] == Pieces(p[1..]);
      PiecesParse(p[1..]);
      assert Pairs(p) == [(p[0].key, ToDisplayString(p[0].value))] + Pairs(p[1..]);
    }
  }

  /**
   * The query string loses nothing: parsing it gives every property's name
   * and string value back, in insertion order.
   */
  lemma QueryRoundTrip(p: Params)
    ensures ParseQuery(SerializeQuery(p)) == Some(Pairs(p))
  {
    if p == [] {
      assert Split("", '&') == [""];
    } else {
      forall i | 0 <= i < |p|
        ensures '&' !in Pieces(p)[i]
      {
        PieceParses(p[i]);
      }
      SplitJoin(Pieces(p), '&');
      PiecesParse(p);
    }
  }
}
