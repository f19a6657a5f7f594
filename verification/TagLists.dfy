/** A tag that holds a list: its values sorted and joined with commas. */
module TagLists {
  import opened Basics

  predicate Ordered(xs: seq<string>) {
    forall i, j :: 0 <= i < j < |xs| ==> !Less(xs[j], xs[i])
  }

  /** x goes before the first element it does not follow. */
  function Insert(x: string, xs: seq<string>): seq<string> {
    if xs == [] || !Less(xs[0], x) then [x] + xs else [xs[0]] + Insert(x, xs[1..])
  }

  function Sort(xs: seq<string>): seq<string> {
    if xs == [] then [] else Insert(xs[0], Sort(xs[1..]))
  }

  lemma {:induction false} LessTransitive(a: string, b: string, c: string)
    requires !Less(b, a) && !Less(c, b)
    ensures !Less(c, a)
  {
    if Less(c, a) && c != [] && a[0] == c[0] && b != [] && b[0] == a[0] {
      LessTransitive(a[1..], b[1..], c[1..]);
    }
  }

  lemma {:induction false} LessOneWay(a: string, b: string)
    requires Less(a, b)
    ensures !Less(b, a)
  {
    if a != [] && a[0] == b[0] {
      LessOneWay(a[1..], b[1..]);
    }
  }

  lemma {:induction false} InsertSorts(x: string, xs: seq<string>)
    requires Ordered(xs)
    ensures Ordered(Insert(x, xs)) && multiset(Insert(x, xs)) == multiset(xs) + multiset{x}
  {
    if xs == [] {
    } else if !Less(xs[0], x) {
      forall j | 0 <= j < |xs| ensures !Less(xs[j], x) {
        if j > 0 {
          LessTransitive(x, xs[0], xs[j]);
        }
      }
    } else {
      LessOneWay(xs[0], x);
      InsertSorts(x, xs[1..]);
      var rest := Insert(x, xs[1..]);
      assert xs == [xs[0]] + xs[1..];
      forall j | 0 <= j < |rest| ensures !Less(rest[j], xs[0]) {
        assert rest[j] in multiset(rest);
        assert rest[j] == x || rest[j] in xs[1..];
      }
    }
  }

  /** Sort orders its argument and loses and adds nothing. */
  lemma {:induction false} SortSorts(xs: seq<string>)
    ensures Ordered(Sort(xs)) && multiset(Sort(xs)) == multiset(xs)
  {
    if xs == [] {
    } else {
      SortSorts(xs[1..]);
      InsertSorts(xs[0], Sort(xs[1..]));
      assert xs == [xs[0]] + xs[1..];
    }
  }

  function Join(xs: seq<string>): string {
    if xs == [] then ""
    else if |xs| == 1 then xs[0]
    else xs[0] + "," + Join(xs[1..])
  }

  /** What a consumer gets by splitting at the commas. */
  function Split(s: string): (parts: seq<string>)
    ensures parts != []
  {
    if s == "" then [""]
    else if s[0] == ',' then [""] + Split(s[1..])
    else
      var rest := Split(s[1..]);
      [[s[0]] + rest[0]] + rest[1..]
  }

  lemma {:induction false} SplitWord(x: string)
    requires ',' !in x
    ensures Split(x) == [x]
  {
    if x == "" {
    } else {
      SplitWord(x[1..]);
      assert x == [x[0]] + x[1..];
    }
  }

  lemma {:induction false} SplitFirst(x: string, rest: string)
    requires ',' !in x
    ensures Split(x + "," + rest) == [x] + Split(rest)
  {
    var s := x + "," + rest;
    if x == "" {
      assert s[1..] == rest;
    } else {
      assert s[1..] == x[1..] + "," + rest;
      SplitFirst(x[1..], rest);
      assert x == [x[0]] + x[1..];
    }
  }

  /** Names without commas read back from the tag exactly. */
  lemma {:induction false} JoinReadsBack(xs: seq<string>)
    requires xs != [] && forall i :: 0 <= i < |xs| ==> ',' !in xs[i]
    ensures Split(Join(xs)) == xs
  {
    if |xs| == 1 {
      SplitWord(xs[0]);
    } else {
      JoinReadsBack(xs[1..]);
      SplitFirst(xs[0], Join(xs[1..]));
    }
  }

  /** So does the sorted list, with the same members. */
  lemma SortReadsBack(xs: seq<string>)
    requires forall x :: x in xs ==> ',' !in x
    ensures xs != [] ==> Split(Join(Sort(xs))) == Sort(xs)
    ensures Ordered(Sort(xs)) && multiset(Sort(xs)) == multiset(xs) && forall x :: x in Sort(xs) <==> x in xs
  {
    SortSorts(xs);
    forall x ensures x in Sort(xs) <==> x in xs {
      assert x in Sort(xs) <==> x in multiset(Sort(xs));
      assert x in xs <==> x in multiset(xs);
    }
    if xs != [] {
      assert xs[0] in Sort(xs);
      JoinReadsBack(Sort(xs));
    }
  }
}
