/**
 * The two string operations the core relies on: string.Join, which glues pieces with a
 * separator, and string.Split(char), which cuts a string at every occurrence of a character
 * (keeping empty pieces). Each is proved to undo the other.
 */
module Text {

  /** string.Join(sep, parts): the pieces in order, with sep between neighbours */
  function Join(parts: seq<string>, sep: string): string
    decreases |parts|
  {
    if |parts| == 0 then ""
    else if |parts| == 1 then parts[0]
    else Join(parts[..|parts| - 1], sep) + sep + parts[|parts| - 1]
  }

  /** s.Split(c): the pieces of s between occurrences of c, empty pieces included */
  function Split(s: string, c: char): seq<string>
  {
    SplitFrom(s, c, "")
  }

  /** Splits s, where cur is the part of the current piece already read */
  function SplitFrom(s: string, c: char, cur: string): seq<string>
    decreases |s|
  {
    if |s| == 0 then [cur]
    else if s[0] == c then [cur] + SplitFrom(s[1..], c, "")
    else SplitFrom(s[1..], c, cur + [s[0]])
  }

  /** Joining one more piece at the front adds that piece and one separator */
  lemma {:induction false} JoinCons(x: string, xs: seq<string>, sep: string)
    requires |xs| >= 1
    ensures Join([x] + xs, sep) == x + sep + Join(xs, sep)
    decreases |xs|
  {
    if |xs| == 1 {
      assert ([x] + xs)[..1] == [x];
    } else {
      var init := xs[..|xs| - 1];
      JoinCons(x, init, sep);
      assert ([x] + xs)[..|xs|] == [x] + init;
    }
  }

  /** Splitting always yields at least one piece, and no piece holds the separator */
  lemma {:induction false} SplitFromShape(s: string, c: char, cur: string)
    requires c !in cur
    ensures |SplitFrom(s, c, cur)| >= 1
    ensures forall p :: p in SplitFrom(s, c, cur) ==> c !in p
    decreases |s|
  {
    if |s| == 0 {
    } else if s[0] == c {
      SplitFromShape(s[1..], c, "");
    } else {
      SplitFromShape(s[1..], c, cur + [s[0]]);
    }
  }

  lemma SplitShape(s: string, c: char)
    ensures |Split(s, c)| >= 1
    ensures forall p :: p in Split(s, c) ==> c !in p
  {
    SplitFromShape(s, c, "");
  }

  lemma {:induction false} JoinSplitFrom(s: string, c: char, cur: string)
    ensures Join(SplitFrom(s, c, cur), [c]) == cur + s
    decreases |s|
  {
    if |s| == 0 {
    } else if s[0] == c {
      SplitFromShape(s[1..], c, "");
      JoinSplitFrom(s[1..], c, "");
      JoinCons(cur, SplitFrom(s[1..], c, ""), [c]);
      assert s == [c] + s[1..];
    } else {
      JoinSplitFrom(s[1..], c, cur + [s[0]]);
      assert s == [s[0]] + s[1..];
    }
  }

  /** Joining the pieces of a split with the same character gives back the string */
  lemma JoinSplit(s: string, c: char)
    ensures Join(Split(s, c), [c]) == s
  {
    JoinSplitFrom(s, c, "");
  }

  /** Reading a piece free of the separator only extends the current piece */
  lemma {:induction false} SplitFromFree(p: string, t: string, c: char, cur: string)
    requires c !in p
    ensures SplitFrom(p + t, c, cur) == SplitFrom(t, c, cur + p)
    decreases |p|
  {
    if |p| == 0 {
      assert p + t == t;
      assert cur + p == cur;
    } else {
      assert (p + t)[0] == p[0];
      assert (p + t)[1..] == p[1..] + t;
      SplitFromFree(p[1..], t, c, cur + [p[0]]);
      assert cur + [p[0]] + p[1..] == cur + p;
    }
  }

  lemma {:induction false} SplitFromJoin(parts: seq<string>, c: char, cur: string)
    requires |parts| >= 1
    requires forall p :: p in parts ==> c !in p
    ensures SplitFrom(Join(parts, [c]), c, cur) == [cur + parts[0]] + parts[1..]
    decreases |parts|
  {
    if |parts| == 1 {
      SplitFromFree(parts[0], "", c, cur);
      assert parts[0] + "" == parts[0];
    } else {
      var rest := parts[1..];
      assert parts == [parts[0]] + rest;
      JoinCons(parts[0], rest, [c]);
      var j := Join(rest, [c]);
      assert parts[0] + [c] + j == parts[0] + ([c] + j);
      SplitFromFree(parts[0], [c] + j, c, cur);
      assert ([c] + j)[1..] == j;
      SplitFromJoin(rest, c, "");
      assert "" + rest[0] == rest[0];
      assert [rest[0]] + rest[1..] == rest;
    }
  }

  /** Splitting a join of separator-free pieces gives back the pieces */
  lemma SplitJoin(parts: seq<string>, c: char)
    requires |parts| >= 1
    requires forall p :: p in parts ==> c !in p
    ensures Split(Join(parts, [c]), c) == parts
  {
    SplitFromJoin(parts, c, "");
    assert "" + parts[0] == parts[0];
    assert [parts[0]] + parts[1..] == parts;
  }
}
