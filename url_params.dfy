/**
 * String splitting as JavaScript's `String.prototype.split` with a one-character
 * separator, and a simplified `application/x-www-form-urlencoded` parser as
 * `URLSearchParams` applies it to a string (URL Standard, section 5.1, and
 * the `URLSearchParams` constructor of section 6.2): one leading `?` is
 * dropped, the string is cut at every `&`, empty pieces are skipped, and each
 * piece is cut at its first `=`.  Percent-decoding and `+` are not modelled.
 */
module UrlParams {
  import opened Common

  /** The position of the first `c` in `s`. */
  function IndexOf(s: string, c: char): (i: nat)
    requires c in s
    ensures i < |s| && s[i] == c && c !in s[..i]
  {
    if s[0] == c then 0
    else
      var j := IndexOf(s[1..], c);
      assert s[..j + 1] == [s[0]] + s[1..][..j];
      j + 1
  }

  /** The first `c` after a `c`-free prefix is the one right after that prefix. */
  lemma IndexOfAfterPrefix(a: string, c: char, b: string)
    requires c !in a
    ensures IndexOf(a + [c] + b, c) == |a|
  {
    var s := a + [c] + b;
    assert s[|a|] == c;
  }

  /** Glues the pieces back together with `c` between consecutive pieces. */
  function Join(parts: seq<string>, c: char): string {
    if |parts| == 0 then ""
    else if |parts| == 1 then parts[0]
    else parts[0] + [c] + Join(parts[1..], c)
  }

  /** `s.split(c)`: the maximal `c`-free pieces, at least one, put back together by `Join`. */
  function Split(s: string, c: char): (parts: seq<string>)
    ensures |parts| >= 1
    ensures c in s <==> |parts| >= 2
    ensures forall k :: 0 <= k < |parts| ==> c !in parts[k]
    ensures Join(parts, c) == s
    decreases |s|
  {
    if c !in s then [s]
    else
      var i := IndexOf(s, c);
      var rest := Split(s[i + 1..], c);
      var parts := [s[..i]] + rest;
      assert parts[1..] == rest;
      assert s == s[..i] + [c] + s[i + 1..];
      parts
  }

  /** Splitting after a `c`-free prefix yields that prefix and then the pieces of the rest. */
  lemma SplitAfterPrefix(a: string, c: char, b: string)
    requires c !in a
    ensures Split(a + [c] + b, c) == [a] + Split(b, c)
  {
    var s := a + [c] + b;
    IndexOfAfterPrefix(a, c, b);
    assert s[..|a|] == a;
    assert s[|a| + 1..] == b;
  }

  /** The first piece of `s`: the text before its first `c`, or all of `s`. */
  lemma FirstPiece(s: string, c: char)
    ensures Split(s, c)[0] == if c in s then s[..IndexOf(s, c)] else s
  {
  }

  /** The first piece is a `c`-free prefix of `s`, followed in `s` by a `c` or by nothing. */
  lemma FirstPiecePrefix(s: string, c: char)
    ensures var r := Split(s, c)[0];
      && |r| <= |s| && s[..|r|] == r && c !in r
      && (|r| == |s| || s[|r|] == c)
  {
    FirstPiece(s, c);
  }

  /** A prefix of a prefix of `s` is a prefix of `s`, followed in `s` by what follows it in the outer one. */
  lemma PrefixOfPrefix(s: string, p: string, q: string)
    requires |p| <= |s| && s[..|p|] == p
    requires |q| <= |p| && p[..|q|] == q
    ensures s[..|q|] == q
    ensures forall x :: x in q ==> x in p
    ensures |q| < |p| ==> s[|q|] == p[|q|]
  {
    assert forall k :: 0 <= k < |q| ==> q[k] == p[k] == s[k];
  }

  /**
   * The second piece is the longest `c`-free prefix of the text after the
   * first `c`.
   */
  lemma SecondPiece(s: string, c: char)
    requires c in s
    ensures var rest := s[IndexOf(s, c) + 1..]; var r := Split(s, c)[1];
      && |r| <= |rest| && rest[..|r|] == r && c !in r
      && (|r| == |rest| || rest[|r|] == c)
  {
    var i := IndexOf(s, c);
    var rest := s[i + 1..];
    assert s == s[..i] + [c] + rest;
    SplitAfterPrefix(s[..i], c, rest);
    FirstPiecePrefix(rest, c);
  }

  /**
   * The first `d`-piece of the second `c`-piece is the longest prefix of the
   * text after the first `c` that is free of both `c` and `d`.
   */
  lemma FirstPieceOfSecondPiece(s: string, c: char, d: char)
    requires c in s
    ensures var rest := s[IndexOf(s, c) + 1..]; var q := Split(Split(s, c)[1], d)[0];
      && |q| <= |rest| && rest[..|q|] == q && c !in q && d !in q
      && (|q| == |rest| || rest[|q|] == c || rest[|q|] == d)
  {
    var rest := s[IndexOf(s, c) + 1..];
    var piece := Split(s, c)[1];
    SecondPiece(s, c);
    FirstPiecePrefix(piece, d);
    PrefixOfPrefix(rest, piece, Split(piece, d)[0]);
  }

  datatype Param = Param(name: string, value: string)

  /** One name-value piece: the name runs to the first `=`; without `=` the value is empty. */
  function ParseParam(piece: string): (p: Param)
    ensures '=' in piece ==> p.name + "=" + p.value == piece && '=' !in p.name
    ensures '=' !in piece ==> p == Param(piece, "")
  {
    if '=' in piece then
      var i := IndexOf(piece, '=');
      assert piece == piece[..i] + "=" + piece[i + 1..];
      Param(piece[..i], piece[i + 1..])
    else Param(piece, "")
  }

  /** `p` is the pair of some non-empty piece among `pieces`. */
  predicate ParsedFrom(p: Param, pieces: seq<string>) {
    exists j :: 0 <= j < |pieces| && pieces[j] != "" && p == ParseParam(pieces[j])
  }

  /** The pieces in order, empty ones skipped. */
  function ParsePieces(pieces: seq<string>): (ps: seq<Param>)
    ensures |ps| <= |pieces|
    ensures forall k :: 0 <= k < |ps| ==> ParsedFrom(ps[k], pieces)
    ensures forall j :: 0 <= j < |pieces| && pieces[j] != "" ==> ParseParam(pieces[j]) in ps
  {
    if pieces == [] then []
    else
      var tail := ParsePieces(pieces[1..]);
      var ps := if pieces[0] == "" then tail else [ParseParam(pieces[0])] + tail;
      ParsePiecesShift(pieces, tail, ps);
      ps
  }

  /** The origin of each pair carries over from the rest of the pieces to all of them. */
  lemma ParsePiecesShift(pieces: seq<string>, tail: seq<Param>, ps: seq<Param>)
    requires pieces != []
    requires forall k :: 0 <= k < |tail| ==> ParsedFrom(tail[k], pieces[1..])
    requires ps == if pieces[0] == "" then tail else [ParseParam(pieces[0])] + tail
    ensures forall k :: 0 <= k < |ps| ==> ParsedFrom(ps[k], pieces)
  {
    var d := if pieces[0] == "" then 0 else 1;
    forall k | 0 <= k < |ps|
      ensures ParsedFrom(ps[k], pieces)
    {
      if k < d {
        assert pieces[0] != "" && ps[k] == ParseParam(pieces[0]);
      } else {
        assert ps[k] == tail[k - d];
        assert ParsedFrom(tail[k - d], pieces[1..]);
        var j :| 0 <= j < |pieces[1..]| && pieces[1..][j] != "" && tail[k - d] == ParseParam(pieces[1..][j]);
        assert pieces[j + 1] == pieces[1..][j];
      }
    }
  }

  /** Parsing works piece by piece: it distributes over concatenation. */
  lemma {:induction false} ParsePiecesAppend(a: seq<string>, b: seq<string>)
    ensures ParsePieces(a + b) == ParsePieces(a) + ParsePieces(b)
  {
    if a == [] {
      assert a + b == b;
    } else {
      assert (a + b)[0] == a[0] && (a + b)[1..] == a[1..] + b;
      ParsePiecesAppend(a[1..], b);
    }
  }

  /** A single piece: skipped when empty, otherwise its pair. */
  lemma ParsePiecesSingle(p: string)
    ensures ParsePieces([p]) == if p == "" then [] else [ParseParam(p)]
  {
    assert [p][1..] == [];
  }

  /** Splitting the join of `c`-free pieces gives those pieces back. */
  lemma {:induction false} SplitJoin(parts: seq<string>, c: char)
    requires |parts| >= 1
    requires forall k :: 0 <= k < |parts| ==> c !in parts[k]
    ensures Split(Join(parts, c), c) == parts
  {
    if |parts| > 1 {
      SplitJoin(parts[1..], c);
      SplitAfterPrefix(parts[0], c, Join(parts[1..], c));
      assert parts == [parts[0]] + parts[1..];
    }
  }

  /** The first character of a join: that of the first piece, or the separator when it is empty. */
  lemma JoinStart(parts: seq<string>, c: char)
    requires |parts| >= 2
    ensures Join(parts, c) != ""
    ensures Join(parts, c)[0] == if parts[0] == "" then c else parts[0][0]
  {
  }

  /**
   * The query spelt by `&`-free pieces, with or without a leading `?`, parses
   * to those pieces' pairs; with `Split` this determines `Parse` on every query.
   */
  lemma ParseJoin(pieces: seq<string>)
    requires |pieces| >= 1
    requires forall k :: 0 <= k < |pieces| ==> '&' !in pieces[k]
    ensures Parse("?" + Join(pieces, '&')) == ParsePieces(pieces)
    ensures pieces[0] == "" || pieces[0][0] != '?' ==> Parse(Join(pieces, '&')) == ParsePieces(pieces)
  {
    var q := Join(pieces, '&');
    SplitJoin(pieces, '&');
    if |pieces| >= 2 {
      JoinStart(pieces, '&');
    }
    assert pieces[0] == "" || pieces[0][0] != '?' ==> q == "" || q[0] != '?';
    assert ("?" + q)[1..] == q;
  }

  /** `new URLSearchParams(q)`: the name-value list of `q`. */
  function Parse(q: string): (ps: seq<Param>)
    ensures q == "" || q == "?" ==> ps == []
    ensures q != "" && q[0] != '?' && '&' !in q && '=' !in q ==> ps == [Param(q, "")]
    ensures q != "" && q[0] != '?' && '&' !in q ==> ps == [ParseParam(q)]
  {
    var body := if |q| > 0 && q[0] == '?' then q[1..] else q;
    var pieces := Split(body, '&');
    assert '&' !in body ==> pieces == [body] && pieces[1..] == [];
    ParsePieces(pieces)
  }

  /** `params.get(name)`: the value of the first pair with that name, or none. */
  function Get(ps: seq<Param>, name: string): (r: Option<string>)
    ensures r.None? <==> forall k :: 0 <= k < |ps| ==> ps[k].name != name
    ensures r.Some? ==> exists k :: 0 <= k < |ps| && ps[k] == Param(name, r.value)
                                    && forall j :: 0 <= j < k ==> ps[j].name != name
  {
    if ps == [] then None
    else if ps[0].name == name then Some(ps[0].value)
    else
      var r := Get(ps[1..], name);
      GetShift(ps, name, r);
      r
  }

  lemma GetShift(ps: seq<Param>, name: string, r: Option<string>)
    requires ps != [] && ps[0].name != name
    requires r.Some? ==> exists k :: 0 <= k < |ps[1..]| && ps[1..][k] == Param(name, r.value)
                                     && forall j :: 0 <= j < k ==> ps[1..][j].name != name
    ensures r.Some? ==> exists k :: 0 <= k < |ps| && ps[k] == Param(name, r.value)
                                    && forall j :: 0 <= j < k ==> ps[j].name != name
  {
    if r.Some? {
      var k :| 0 <= k < |ps[1..]| && ps[1..][k] == Param(name, r.value)
               && forall j :: 0 <= j < k ==> ps[1..][j].name != name;
      assert ps[k + 1] == Param(name, r.value);
      forall j | 0 <= j < k + 1 ensures ps[j].name != name {
        if j > 0 { assert ps[j] == ps[1..][j - 1]; }
      }
    }
  }

  /** A piece `n=v` with an `=`-free name is the pair `(n, v)`. */
  lemma ParseParamOf(n: string, v: string)
    requires '=' !in n
    ensures ParseParam(n + "=" + v) == Param(n, v)
  {
    var piece := n + "=" + v;
    assert piece == n + ['='] + v;
    IndexOfAfterPrefix(n, '=', v);
    assert piece[..|n|] == n && piece[|n| + 1..] == v;
  }

  /** Two non-empty pieces give their two pairs, in order. */
  lemma ParsePiecesOfTwo(p1: string, p2: string)
    requires p1 != "" && p2 != ""
    ensures ParsePieces([p1, p2]) == [ParseParam(p1), ParseParam(p2)]
  {
    assert [p1, p2][1..] == [p2] && [p2][1..] == [];
  }

  /** The query `n1=v1&n2=v2` with `&`-free values gives exactly those two pairs. */
  lemma ParseTwoPairs(n1: string, v1: string, n2: string, v2: string)
    requires n1 != ""
    requires '=' !in n1 && '=' !in n2 && '&' !in n1 + v1 && '&' !in n2 + v2
    requires n1[0] != '?'
    ensures Parse(n1 + "=" + v1 + "&" + n2 + "=" + v2) == [Param(n1, v1), Param(n2, v2)]
  {
    var p1 := n1 + "=" + v1;
    var p2 := n2 + "=" + v2;
    var q := n1 + "=" + v1 + "&" + n2 + "=" + v2;
    assert q == p1 + ['&'] + p2;
    assert '&' !in p1 && '&' !in p2 by {
      assert p1 == n1 + ("=" + v1) && p2 == n2 + ("=" + v2);
    }
    SplitAfterPrefix(p1, '&', p2);
    assert Split(p2, '&') == [p2];
    var pieces := Split(q, '&');
    assert pieces == [p1, p2];
    assert q[0] == n1[0];
    assert Parse(q) == ParsePieces(pieces);
    assert p1 != "" && p2 != "";
    ParsePiecesOfTwo(p1, p2);
    ParseParamOf(n1, v1);
    ParseParamOf(n2, v2);
  }
}
