/**
 The few pieces of Python's built-in behaviour the tariff engine leans on:
 list indexing (with negative indices and IndexError), `str.split` with an
 explicit separator, and parsing every piece of a split string (where one bad
 piece raises ValueError for the whole list).
 */
module PySemantics {

  datatype Option<+T> = None | Some(value: T)

  /** The two exceptions the tariff engine can raise on its own. */
  datatype PyError = ValueError | IndexError

  /** A value, or the exception the Python code would raise instead. */
  datatype Outcome<+T> = Ok(value: T) | Raised(error: PyError)

  /** Python's `xs[i]` on a list: a negative index counts from the end,
      anything outside `-len(xs) <= i < len(xs)` raises IndexError (None here). */
  function Index<T>(xs: seq<T>, i: int): (r: Option<T>)
    ensures r.Some? <==> -|xs| <= i < |xs|
    ensures r.Some? ==> r.value in xs
    ensures 0 <= i < |xs| ==> r == Some(xs[i])
    ensures -|xs| <= i < 0 ==> r == Index(xs, i + |xs|)
    decreases if i < 0 then 1 else 0
  {
    if 0 <= i < |xs| then Some(xs[i])
    else if -|xs| <= i < 0 then Some(xs[|xs| + i])
    else None
  }

  /** Python's `s.split(sep)` with an explicit one-character separator: there is
      always one more piece than there are separators in `s`, and no piece
      contains the separator (`"".split(",") == [""]`). */
  function Split(s: string, sep: char): (pieces: seq<string>)
    ensures |pieces| == multiset(s)[sep] + 1
    ensures forall i :: 0 <= i < |pieces| ==> sep !in pieces[i]
    decreases |s|
  {
    if |s| == 0 then [""]
    else
      assert s == [s[0]] + s[1..];
      var rest := Split(s[1..], sep);
      if s[0] == sep then [""] + rest
      else [[s[0]] + rest[0]] + rest[1..]
  }

  /** `sep.join(pieces)`: the inverse of Split, used to state what an override
      string written from a list of values looks like. */
  function Join(pieces: seq<string>, sep: char): string
    decreases |pieces|
  {
    if |pieces| == 0 then ""
    else if |pieces| == 1 then pieces[0]
    else pieces[0] + [sep] + Join(pieces[1..], sep)
  }

  /** `[parse(x) for x in pieces]`: every piece is parsed, and a single piece
      that does not parse makes the whole list fail (Python raises ValueError
      before any element is used). */
  function ParseAll(pieces: seq<string>, parse: string -> Option<int>): (r: Option<seq<int>>)
    ensures r.Some? <==> forall i :: 0 <= i < |pieces| ==> parse(pieces[i]).Some?
    ensures r.Some? ==> |r.value| == |pieces|
    ensures r.Some? ==> forall i :: 0 <= i < |pieces| ==> Some(r.value[i]) == parse(pieces[i])
    decreases |pieces|
  {
    if |pieces| == 0 then Some([])
    else
      match parse(pieces[0])
      case None => None
      case Some(x) =>
        match ParseAll(pieces[1..], parse)
        case None => None
        case Some(rest) => Some([x] + rest)
  }

  /** Splitting a string that starts with a separator-free prefix glues that
      prefix onto the first piece of the rest. */
  lemma {:induction false} SplitPrefix(a: string, t: string, sep: char)
    requires sep !in a
    ensures Split(a + t, sep) == [a + Split(t, sep)[0]] + Split(t, sep)[1..]
    decreases |a|
  {
    if |a| == 0 {
      var rest := Split(t, sep);
      assert a + t == t;
      assert a + rest[0] == rest[0];
      assert [rest[0]] + rest[1..] == rest;
    } else {
      assert (a + t)[0] == a[0];
      assert (a + t)[1..] == a[1..] + t;
      SplitPrefix(a[1..], t, sep);
      assert [a[0]] + (a[1..] + Split(t, sep)[0]) == a + Split(t, sep)[0];
    }
  }

  /** Round trip: splitting a joined list gives the list back, provided there is
      at least one piece and no piece contains the separator. */
  lemma {:induction false} SplitJoin(pieces: seq<string>, sep: char)
    requires |pieces| >= 1
    requires forall i :: 0 <= i < |pieces| ==> sep !in pieces[i]
    ensures Split(Join(pieces, sep), sep) == pieces
    decreases |pieces|
  {
    if |pieces| == 1 {
      SplitPrefix(pieces[0], "", sep);
      assert pieces[0] + "" == pieces[0];
    } else {
      var tail := Join(pieces[1..], sep);
      SplitJoin(pieces[1..], sep);
      assert pieces[0] + [sep] + tail == pieces[0] + ([sep] + tail);
      SplitPrefix(pieces[0], [sep] + tail, sep);
      assert ([sep] + tail)[1..] == tail;
      assert Split([sep] + tail, sep) == [""] + pieces[1..];
      assert pieces[0] + "" == pieces[0];
      assert [pieces[0]] + pieces[1..] == pieces;
    }
  }

  /** Joining a list whose head is put in front of another, non-empty list. */
  lemma JoinCons(p: string, rest: seq<string>, sep: char)
    requires |rest| >= 1
    ensures Join([p] + rest, sep) == p + [sep] + Join(rest, sep)
  {
    assert ([p] + rest)[1..] == rest;
  }

  /** Prefixing a character to the first piece prefixes it to the joined string. */
  lemma JoinGlue(c: char, rest: seq<string>, sep: char)
    requires |rest| >= 1
    ensures Join([[c] + rest[0]] + rest[1..], sep) == [c] + Join(rest, sep)
  {
    if |rest| > 1 {
      JoinCons([c] + rest[0], rest[1..], sep);
      JoinCons(rest[0], rest[1..], sep);
      assert [rest[0]] + rest[1..] == rest;
    }
  }

  /** The other round trip: joining the pieces of a split string restores it. */
  lemma {:induction false} JoinSplit(s: string, sep: char)
    ensures Join(Split(s, sep), sep) == s
    decreases |s|
  {
    if |s| > 0 {
      var rest := Split(s[1..], sep);
      JoinSplit(s[1..], sep);
      assert s == [s[0]] + s[1..];
      if s[0] == sep {
        JoinCons("", rest, sep);
      } else {
        JoinGlue(s[0], rest, sep);
      }
    }
  }
}
