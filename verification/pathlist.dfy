/** Splitting a search-path variable into its directories on the list
    separator, as filepath.SplitList does on Unix systems. */
module PathList {

  const ListSeparator: char := ':'

  /** Every separator-delimited field, empty fields included; a string with
      no separator is one field. */
  function Split(s: string): (parts: seq<string>)
    ensures |parts| >= 1
    ensures forall i :: 0 <= i < |parts| ==> ListSeparator !in parts[i]
    decreases |s|
  {
    if |s| == 0 then [""]
    else
      var rest := Split(s[1..]);
      if s[0] == ListSeparator then [""] + rest
      else [[s[0]] + rest[0]] + rest[1..]
  }

  /** The fields written back with the separator between them. */
  function JoinList(parts: seq<string>): string
    requires |parts| >= 1
    decreases |parts|
  {
    if |parts| == 1 then parts[0]
    else parts[0] + [ListSeparator] + JoinList(parts[1..])
  }

  /** The directories named by a search-path value: none for the empty value,
      otherwise every field, and joining them back gives the value. */
  function SplitList(path: string): (dirs: seq<string>)
    ensures path == "" <==> dirs == []
    ensures path != "" ==> JoinList(dirs) == path
    ensures forall i :: 0 <= i < |dirs| ==> ListSeparator !in dirs[i]
  {
    if path == "" then []
    else
      SplitJoin(path);
      Split(path)
  }

  /** Joining the fields of a string restores it. */
  lemma {:induction false} SplitJoin(s: string)
    ensures JoinList(Split(s)) == s
    decreases |s|
  {
    if |s| > 0 {
      var rest := Split(s[1..]);
      SplitJoin(s[1..]);
      if s[0] == ListSeparator {
        assert ([""] + rest)[1..] == rest;
      } else {
        var parts := [[s[0]] + rest[0]] + rest[1..];
        if |rest| > 1 {
          assert parts[1..] == rest[1..];
          assert JoinList(rest) == rest[0] + [ListSeparator] + JoinList(rest[1..]);
        }
        assert JoinList(parts) == [s[0]] + JoinList(rest);
        assert s == [s[0]] + s[1..];
      }
    }
  }

  /** A separator-free prefix becomes part of the first field. */
  lemma {:induction false} SplitPrefix(a: string, t: string)
    requires ListSeparator !in a
    ensures Split(a + t) == [a + Split(t)[0]] + Split(t)[1..]
    decreases |a|
  {
    if |a| == 0 {
      assert a + t == t;
      assert a + Split(t)[0] == Split(t)[0];
      assert Split(t) == [Split(t)[0]] + Split(t)[1..];
    } else {
      assert (a + t)[0] == a[0];
      assert (a + t)[1..] == a[1..] + t;
      SplitPrefix(a[1..], t);
      assert [a[0]] + (a[1..] + Split(t)[0]) == a + Split(t)[0];
    }
  }

  /** Splitting a joined list of separator-free fields gives the fields back. */
  lemma {:induction false} JoinSplit(parts: seq<string>)
    requires |parts| >= 1
    requires forall i :: 0 <= i < |parts| ==> ListSeparator !in parts[i]
    ensures Split(JoinList(parts)) == parts
    decreases |parts|
  {
    if |parts| == 1 {
      SplitPrefix(parts[0], "");
      assert parts[0] + "" == parts[0];
    } else {
      var tailText := JoinList(parts[1..]);
      JoinSplit(parts[1..]);
      var t := [ListSeparator] + tailText;
      assert Split(t) == [""] + Split(tailText) by {
        assert t[1..] == tailText;
      }
      SplitPrefix(parts[0], t);
      assert Split(t)[0] == "" && Split(t)[1..] == parts[1..];
      assert parts[0] + "" == parts[0];
      assert JoinList(parts) == parts[0] + t;
      assert parts == [parts[0]] + parts[1..];
    }
  }
}
