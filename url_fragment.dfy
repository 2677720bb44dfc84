/** The callback URL's fragment as `URLSearchParams` reads it: the
    application/x-www-form-urlencoded parser of section 5.1 of the WHATWG URL
    Standard (split on `&`, drop empty pieces, split each piece at its first
    `=`, turn `+` into a space) and `get` of section 6.2 (the value of the
    first pair with that name). Percent-decoding is not modelled. */
module UrlFragment {
  import opened Js

  /** A name/value pair, in the order it appears in the input. */
  type Param = (string, string)

  /** The pieces joined back together with `sep` between them. */
  function Join(pieces: seq<string>, sep: char): string
    requires |pieces| >= 1
  {
    if |pieces| == 1 then pieces[0] else pieces[0] + [sep] + Join(pieces[1..], sep)
  }

  /** The pieces of `s` between occurrences of `sep`; empty pieces are kept. */
  function Split(s: string, sep: char): (r: seq<string>)
    ensures |r| >= 1
    ensures forall i :: 0 <= i < |r| ==> sep !in r[i]
    ensures Join(r, sep) == s
  {
    if s == [] then [""]
    else
      var rest := Split(s[1..], sep);
      if s[0] == sep then
        assert ([""] + rest)[1..] == rest;
        [""] + rest
      else
        var r := [[s[0]] + rest[0]] + rest[1..];
        assert |rest| > 1 ==> r[1..] == rest[1..] && Join(rest, sep) == rest[0] + [sep] + Join(rest[1..], sep);
        assert s == [s[0]] + s[1..];
        r
  }

  /** Splitting a piece that does not hold the separator gives that piece. */
  lemma {:induction false} SplitPlain(x: string, sep: char)
    requires sep !in x
    ensures Split(x, sep) == [x]
  {
    if x != [] {
      SplitPlain(x[1..], sep);
    }
  }

  /** A separator after a separator-free prefix ends the first piece. */
  lemma {:induction false} SplitAfterPiece(x: string, sep: char, t: string)
    requires sep !in x
    ensures Split(x + [sep] + t, sep) == [x] + Split(t, sep)
  {
    if x == [] {
      assert x + [sep] + t == [sep] + t;
      assert ([sep] + t)[1..] == t;
    } else {
      assert (x + [sep] + t)[1..] == x[1..] + [sep] + t;
      SplitAfterPiece(x[1..], sep, t);
      assert [x[0]] + x[1..] == x;
    }
  }

  /** Split undoes Join when no piece holds the separator. */
  lemma {:induction false} SplitJoin(pieces: seq<string>, sep: char)
    requires |pieces| >= 1
    requires forall i :: 0 <= i < |pieces| ==> sep !in pieces[i]
    ensures Split(Join(pieces, sep), sep) == pieces
  {
    if |pieces| == 1 {
      SplitPlain(pieces[0], sep);
    } else {
      SplitJoin(pieces[1..], sep);
      SplitAfterPiece(pieces[0], sep, Join(pieces[1..], sep));
      assert [pieces[0]] + pieces[1..] == pieces;
    }
  }

  /** `+` stands for a space in a urlencoded name or value. */
  function PlusToSpace(s: string): string {
    seq(|s|, i requires 0 <= i < |s| => if s[i] == '+' then ' ' else s[i])
  }

  /** One non-empty piece: the name is what precedes the first `=`, the value
      what follows it (empty when there is no `=`). */
  function ParsePiece(piece: string): (p: Param)
    ensures '=' !in p.0
    ensures '=' !in piece ==> p == (PlusToSpace(piece), "")
  {
    var parts := Split(piece, '=');
    assert '=' !in piece ==> parts == [piece] by {
      if '=' !in piece { SplitPlain(piece, '='); }
    }
    (PlusToSpace(parts[0]), if |parts| == 1 then "" else PlusToSpace(Join(parts[1..], '=')))
  }

  /** The first `=` ends the name; later ones belong to the value. */
  lemma ParsePieceAtFirstEquals(name: string, value: string)
    requires '=' !in name
    ensures ParsePiece(name + "=" + value) == (PlusToSpace(name), PlusToSpace(value))
  {
    SplitAfterPiece(name, '=', value);
    var parts := Split(name + "=" + value, '=');
    assert parts[1..] == Split(value, '=');
  }

  /** The pairs of the non-empty pieces, in order: empty pieces are skipped. */
  function ParsePieces(pieces: seq<string>): (r: seq<Param>)
    ensures |r| <= |pieces|
    ensures forall k :: 0 <= k < |r| ==> '=' !in r[k].0
    ensures (forall i :: 0 <= i < |pieces| ==> pieces[i] == "") ==> r == []
    ensures |pieces| == 1 ==> r == (if pieces[0] == "" then [] else [ParsePiece(pieces[0])])
  {
    if pieces == [] then []
    else if pieces[0] == "" then ParsePieces(pieces[1..])
    else [ParsePiece(pieces[0])] + ParsePieces(pieces[1..])
  }

  /** Pieces are read one at a time: the pairs of a concatenation are the
      pairs of each part in turn, so an empty piece is dropped wherever it
      stands and a non-empty one always yields its pair. */
  lemma {:induction false} ParsePiecesAppend(a: seq<string>, b: seq<string>)
    ensures ParsePieces(a + b) == ParsePieces(a) + ParsePieces(b)
  {
    if a == [] {
      assert a + b == b;
    } else {
      assert (a + b)[0] == a[0];
      assert (a + b)[1..] == a[1..] + b;
      ParsePiecesAppend(a[1..], b);
    }
  }

  /** `new URLSearchParams(input)` for a string: one leading `?` is dropped,
      then the rest is read as the list of pairs it encodes. */
  function ParseQuery(input: string): (r: seq<Param>)
    ensures input == "" || input == "?" ==> r == []
    ensures forall k :: 0 <= k < |r| ==> '=' !in r[k].0
  {
    var query := if |input| > 0 && input[0] == '?' then input[1..] else input;
    assert query == "" ==> Split(query, '&') == [""];
    ParsePieces(Split(query, '&'))
  }

  /** A single leading `?` makes no difference to the pairs. */
  lemma LeadingQuestionDropped(query: string)
    requires query == "" || query[0] != '?'
    ensures ParseQuery("?" + query) == ParseQuery(query)
  {
    assert ("?" + query)[1..] == query;
  }

  /** `params.get(name)`: the value of the first pair named `name`, or None. */
  function Get(params: seq<Param>, name: string): (r: Option<string>)
    ensures r.None? <==> forall i :: 0 <= i < |params| ==> params[i].0 != name
    ensures r.Some? ==>
      exists i :: 0 <= i < |params| && params[i] == (name, r.value) &&
        forall j :: 0 <= j < i ==> params[j].0 != name
  {
    if params == [] then None
    else if params[0].0 == name then Some(params[0].1)
    else
      var r := Get(params[1..], name);
      assert forall i :: 0 < i < |params| ==> params[i] == params[1..][i - 1];
      r
  }

  /** `location.hash.substring(1)`: the fragment without its leading `#`. */
  function FragmentQuery(hash: string): (q: string)
    ensures |hash| >= 1 ==> [hash[0]] + q == hash
    ensures |hash| == 0 ==> q == ""
  {
    if |hash| == 0 then "" else hash[1..]
  }

  // A serializer, the parser's partner: names and values that avoid the
  // characters the format reserves are read back exactly.

  /** No character with a meaning of its own in the format. */
  predicate Plain(s: string) {
    forall i :: 0 <= i < |s| ==> s[i] != '&' && s[i] != '=' && s[i] != '+' && s[i] != '%'
  }

  function SpaceToPlus(s: string): string {
    seq(|s|, i requires 0 <= i < |s| => if s[i] == ' ' then '+' else s[i])
  }

  function EncodePiece(p: Param): string {
    SpaceToPlus(p.0) + "=" + SpaceToPlus(p.1)
  }

  function EncodePieces(params: seq<Param>): (r: seq<string>)
    ensures |r| == |params|
  {
    seq(|params|, i requires 0 <= i < |params| => EncodePiece(params[i]))
  }

  function Serialize(params: seq<Param>): string {
    if params == [] then "" else Join(EncodePieces(params), '&')
  }

  lemma SpaceToPlusPlain(s: string)
    requires Plain(s)
    ensures PlusToSpace(SpaceToPlus(s)) == s
    ensures '=' !in SpaceToPlus(s) && '&' !in SpaceToPlus(s)
  {
    var e := SpaceToPlus(s);
    assert forall i :: 0 <= i < |e| ==> e[i] != '=' && e[i] != '&';
  }

  /** One encoded pair parses back to itself. */
  lemma ParseEncodedPiece(p: Param)
    requires Plain(p.0) && Plain(p.1)
    ensures ParsePiece(EncodePiece(p)) == p
  {
    SpaceToPlusPlain(p.0);
    SpaceToPlusPlain(p.1);
    ParsePieceAtFirstEquals(SpaceToPlus(p.0), SpaceToPlus(p.1));
  }

  lemma {:induction false} ParseEncodedPieces(params: seq<Param>)
    requires forall i :: 0 <= i < |params| ==> Plain(params[i].0) && Plain(params[i].1)
    ensures ParsePieces(EncodePieces(params)) == params
  {
    if params != [] {
      var e := EncodePieces(params);
      ParseEncodedPiece(params[0]);
      assert e[0] != "" by { assert e[0][|SpaceToPlus(params[0].0)|] == '='; }
      assert e[1..] == EncodePieces(params[1..]);
      ParseEncodedPieces(params[1..]);
      assert [params[0]] + params[1..] == params;
    }
  }

  /** Parsing undoes serializing, for names and values free of `&`, `=`,
      `+` and `%` whose first name does not start with `?`. */
  lemma ParseSerialize(params: seq<Param>)
    requires forall i :: 0 <= i < |params| ==> Plain(params[i].0) && Plain(params[i].1)
    requires params != [] && params[0].0 != "" ==> params[0].0[0] != '?'
    ensures ParseQuery(Serialize(params)) == params
  {
    if params == [] {
      assert Split("", '&') == [""];
    } else {
      var e := EncodePieces(params);
      var name := SpaceToPlus(params[0].0);
      assert e[0] == name + "=" + SpaceToPlus(params[0].1);
      assert e[0][0] != '?' by {
        if name != "" { assert name[0] == '+' || name[0] == params[0].0[0]; }
      }
      assert Serialize(params)[0] == e[0][0];
      forall i | 0 <= i < |e| ensures '&' !in e[i] {
        SpaceToPlusPlain(params[i].0);
        SpaceToPlusPlain(params[i].1);
      }
      SplitJoin(e, '&');
      ParseEncodedPieces(params);
    }
  }
}
