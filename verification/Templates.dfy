/** Filling in the `{{key}}` places of usage texts, one key after the other in any order. */
module Templates {

  /** strings.Replace: every occurrence, found from the left and not overlapping. */
  function Replace(s: string, mark: string, val: string): string
    requires mark != []
    decreases |s|
  {
    if s == [] then []
    else if mark <= s then val + Replace(s[|mark|..], mark, val)
    else [s[0]] + Replace(s[1..], mark, val)
  }

  /** A text in pieces: literals and places for keys. */
  datatype Piece = Literal(text: string) | Place(key: string)

  function Marker(key: string): (m: string)
    ensures m != []
  {
    "{{" + key + "}}"
  }

  function Text(ps: seq<Piece>): string {
    if ps == [] then []
    else (if ps[0].Literal? then ps[0].text else Marker(ps[0].key)) + Text(ps[1..])
  }

  /** Every place whose key has a value is filled in, all at once. */
  function Filled(ps: seq<Piece>, values: map<string, string>): seq<Piece> {
    if ps == [] then []
    else [if ps[0].Place? && ps[0].key in values then Literal(values[ps[0].key]) else ps[0]] + Filled(ps[1..], values)
  }

  predicate NoBrace(s: string) {
    '{' !in s && '}' !in s
  }

  predicate Clean(ps: seq<Piece>) {
    forall i | 0 <= i < |ps| :: NoBrace(if ps[i].Literal? then ps[i].text else ps[i].key)
  }

  ghost predicate CleanValues(values: map<string, string>) {
    forall k | k in values :: NoBrace(k) && NoBrace(values[k])
  }

  /** stprintf: the keys come in whatever order the map gives them. */
  method Stprintf(format: string, params: map<string, string>) returns (r: string)
    ensures CleanValues(params) ==> forall ps | Clean(ps) && Text(ps) == format :: r == Text(Filled(ps, params))
  {
    r := format;
    var left := params.Keys;
    ghost var done: map<string, string> := map[];
    forall ps ensures Filled(ps, done) == ps { FillNothing(ps); }
    while left != {}
      invariant left <= params.Keys && done == params - left
      invariant CleanValues(params) ==> forall ps | Clean(ps) && Text(ps) == format :: r == Text(Filled(ps, done))
      decreases left
    {
      var key :| key in left;
      if CleanValues(params) {
        forall ps | Clean(ps) && Text(ps) == format
          ensures Replace(r, Marker(key), params[key]) == Text(Filled(ps, done[key := params[key]]))
        {
          FillOneMore(ps, done, key, params[key]);
        }
      }
      r := Replace(r, Marker(key), params[key]);
      left := left - {key};
      done := done[key := params[key]];
    }
    assert params - {} == params;
  }

  // ---------------------------------------------------------------- replacing one marker

  lemma Cons(c: char, s: string)
    ensures ([c] + s)[1..] == s
  {
  }

  /** A literal has no marker in it, and none begins in it. */
  lemma {:induction false} SkipLiteral(p: string, rest: string, key: string, val: string)
    requires '{' !in p
    ensures Replace(p + rest, Marker(key), val) == p + Replace(rest, Marker(key), val)
    decreases |p|
  {
    if p == [] {
      assert p + rest == rest;
    } else {
      assert (p + rest)[1..] == p[1..] + rest && (p + rest)[0] == p[0] != Marker(key)[0];
      SkipLiteral(p[1..], rest, key, val);
      assert [p[0]] + (p[1..] + Replace(rest, Marker(key), val)) == p + Replace(rest, Marker(key), val);
    }
  }

  /** A marker is the beginning of a text that begins with another only if it is the same. */
  lemma MarkerPrefix(key: string, other: string, rest: string)
    requires NoBrace(key) && NoBrace(other) && Marker(key) <= Marker(other) + rest
    ensures key == other
  {
    var t := Marker(other) + rest;
    var m := Marker(key);
    assert forall i | 0 <= i < |m| :: m[i] == t[i];
    assert m[2 + |key|] == '}' && t[2 + |other|] == '}';
    assert forall i | 0 <= i < |key| :: m[2 + i] == key[i];
    assert forall i | 0 <= i < |other| :: t[2 + i] == other[i];
    if |key| == |other| {
      assert forall i | 0 <= i < |key| :: key[i] == m[2 + i] == t[2 + i] == other[i];
    }
  }

  lemma FillMarker(rest: string, key: string, val: string)
    ensures Replace(Marker(key) + rest, Marker(key), val) == val + Replace(rest, Marker(key), val)
  {
    assert (Marker(key) + rest)[|Marker(key)|..] == rest;
  }

  /** The second brace of a marker does not begin one, and neither does the first of another's. */
  lemma SkipMarker(rest: string, key: string, other: string, val: string)
    requires NoBrace(key) && NoBrace(other) && key != other
    ensures Replace(Marker(other) + rest, Marker(key), val) == Marker(other) + Replace(rest, Marker(key), val)
  {
    var tail := other + "}}";
    var m := Marker(key);
    if m <= Marker(other) + rest { MarkerPrefix(key, other, rest); }
    assert Marker(other) + rest == ['{'] + (['{'] + (tail + rest));
    Cons('{', ['{'] + (tail + rest));
    Cons('{', tail + rest);
    assert (['{'] + (tail + rest))[1] == tail[0] != m[1];
    assert !(m <= ['{'] + (tail + rest));
    SkipLiteral(tail, rest, key, val);
    assert ['{'] + (['{'] + (tail + Replace(rest, m, val))) == Marker(other) + Replace(rest, m, val);
  }

  /** Replacing one marker fills the places of its key. */
  lemma {:induction false} ReplaceFills(ps: seq<Piece>, key: string, val: string)
    requires Clean(ps) && NoBrace(key)
    ensures Replace(Text(ps), Marker(key), val) == Text(Filled(ps, map[key := val]))
    decreases |ps|
  {
    if ps != [] {
      var rest := Text(ps[1..]);
      ReplaceFills(ps[1..], key, val);
      var qs := Filled(ps, map[key := val]);
      assert qs[1..] == Filled(ps[1..], map[key := val]);
      if ps[0].Literal? {
        SkipLiteral(ps[0].text, rest, key, val);
      } else if ps[0].key == key {
        FillMarker(rest, key, val);
      } else {
        SkipMarker(rest, key, ps[0].key, val);
      }
    }
  }

  lemma {:induction false} FillNothing(ps: seq<Piece>)
    ensures Filled(ps, map[]) == ps
  {
    if ps != [] { FillNothing(ps[1..]); }
  }

  lemma {:induction false} FilledTwice(ps: seq<Piece>, done: map<string, string>, key: string, val: string)
    requires key !in done
    ensures Filled(Filled(ps, done), map[key := val]) == Filled(ps, done[key := val])
  {
    if ps != [] {
      FilledTwice(ps[1..], done, key, val);
      assert Filled(ps, done)[1..] == Filled(ps[1..], done);
    }
  }

  lemma {:induction false} FilledClean(ps: seq<Piece>, values: map<string, string>)
    requires Clean(ps) && CleanValues(values)
    ensures Clean(Filled(ps, values))
  {
    if ps != [] { FilledClean(ps[1..], values); }
  }

  /** The values never contain a marker, so one key after the other is as good as all at once. */
  lemma FillOneMore(ps: seq<Piece>, done: map<string, string>, key: string, val: string)
    requires Clean(ps) && CleanValues(done) && NoBrace(key) && key !in done
    ensures Replace(Text(Filled(ps, done)), Marker(key), val) == Text(Filled(ps, done[key := val]))
  {
    FilledClean(ps, done);
    ReplaceFills(Filled(ps, done), key, val);
    FilledTwice(ps, done, key, val);
  }
}
