/** The `;`-separated rendering of the version formats a component declares,
    used in the messages of the version-format check. */
module FormatList {

  const Separator: char := ';'

  /** The parts separated by single `;` characters, with none before the first
      part or after the last. */
  function Join(parts: seq<string>): (s: string)
  {
    if |parts| == 0 then ""
    else if |parts| == 1 then parts[0]
    else parts[0] + [Separator] + Join(parts[1..])
  }

  /** The pieces of `s` between consecutive `;` characters; the inverse of
      Join for parts that hold no `;`. */
  function Split(s: string): (parts: seq<string>)
    ensures |parts| >= 1
  {
    if |s| == 0 then [""]
    else
      var rest := Split(s[1..]);
      if s[0] == Separator then [""] + rest
      else [[s[0]] + rest[0]] + rest[1..]
  }

  predicate NoSeparator(parts: seq<string>)
  {
    forall i :: 0 <= i < |parts| ==> Separator !in parts[i]
  }

  /** Appending one more part to a non-empty list adds one separator and the part. */
  lemma {:induction false} JoinSnoc(parts: seq<string>, x: string)
    requires |parts| > 0
    ensures Join(parts + [x]) == Join(parts) + [Separator] + x
  {
    if |parts| == 1 {
      assert parts + [x] == [parts[0], x];
      assert [x][1..] == [];
    } else {
      assert (parts + [x])[1..] == parts[1..] + [x];
      JoinSnoc(parts[1..], x);
    }
  }

  lemma {:induction false} SplitWithoutSeparator(a: string)
    requires Separator !in a
    ensures Split(a) == [a]
  {
    if |a| > 0 {
      SplitWithoutSeparator(a[1..]);
      assert [a[0]] + a[1..] == a;
    }
  }

  lemma {:induction false} SplitAtSeparator(a: string, b: string)
    requires Separator !in a
    ensures Split(a + [Separator] + b) == [a] + Split(b)
  {
    var s := a + [Separator] + b;
    if |a| == 0 {
      assert s[1..] == b;
    } else {
      assert s[1..] == a[1..] + [Separator] + b;
      SplitAtSeparator(a[1..], b);
      assert [a[0]] + a[1..] == a;
    }
  }

  /** Round trip: splitting the joined formats gives them back, provided there
      is at least one and none contains the separator. */
  lemma {:induction false} SplitJoin(parts: seq<string>)
    requires |parts| > 0 && NoSeparator(parts)
    ensures Split(Join(parts)) == parts
  {
    if |parts| == 1 {
      SplitWithoutSeparator(parts[0]);
    } else {
      assert Separator !in parts[0];
      SplitAtSeparator(parts[0], Join(parts[1..]));
      SplitJoin(parts[1..]);
      assert [parts[0]] + parts[1..] == parts;
    }
  }

  /** fu_install_task_verfmts_to_string: append each text followed by `;`,
      then drop the final character if anything was appended. */
  method VerfmtsToString(verfmts: seq<string>) returns (s: string)
    ensures s == Join(verfmts)
    ensures |verfmts| > 0 && NoSeparator(verfmts) ==> Split(s) == verfmts
  {
    var str := "";
    for i := 0 to |verfmts|
      invariant i == 0 ==> str == ""
      invariant i > 0 ==> str == Join(verfmts[..i]) + [Separator]
    {
      var tmp := verfmts[i];
      if i > 0 {
        JoinSnoc(verfmts[..i], tmp);
      }
      assert verfmts[..i + 1] == verfmts[..i] + [tmp];
      str := str + tmp + [Separator];
    }
    assert verfmts[..|verfmts|] == verfmts;
    if |str| > 0 {
      str := str[..|str| - 1];
    }
    s := str;
    if |verfmts| > 0 && NoSeparator(verfmts) {
      SplitJoin(verfmts);
    }
  }
}
