/** `sort_libs`: reorders a list of discovered library names so that it
    follows an expected link order, after suffixing the expected names. */
module SortLibs {

  /** Each name with `suffix` appended, in the same order. */
  function Suffixed(names: seq<string>, suffix: string): (r: seq<string>)
    ensures |r| == |names|
    ensures forall i :: 0 <= i < |names| ==> r[i] == names[i] + suffix
  {
    if names == [] then [] else [names[0] + suffix] + Suffixed(names[1..], suffix)
  }

  /** With the default empty suffix the names are unchanged. */
  lemma SuffixedByEmpty(names: seq<string>)
    ensures Suffixed(names, "") == names
  {
    var r := Suffixed(names, "");
    forall i | 0 <= i < |names| ensures r[i] == names[i] {
      assert names[i] + "" == names[i];
    }
  }

  /** The entries of `libs` equal to `name`, in the order of `libs`: what
      one pass of the inner loop appends. */
  function EqualEntries(libs: seq<string>, name: string): (r: seq<string>)
    ensures forall i :: 0 <= i < |r| ==> r[i] == name
  {
    if libs == [] then []
    else
      var last := libs[|libs| - 1];
      EqualEntries(libs[..|libs| - 1], name) + (if last == name then [last] else [])
  }

  /** Every entry equal to `name` is kept, and no other. */
  lemma {:induction false} EqualEntriesCount(libs: seq<string>, name: string, y: string)
    ensures multiset(EqualEntries(libs, name))[y] == if y == name then multiset(libs)[y] else 0
  {
    if libs != [] {
      var n := |libs| - 1;
      EqualEntriesCount(libs[..n], name, y);
      assert libs == libs[..n] + [libs[n]];
    }
  }

  /** The matches of every expected name, grouped by expected name in the
      order of `order`: what the two nested loops collect. */
  function Matches(order: seq<string>, libs: seq<string>): (r: seq<string>)
    ensures forall k :: 0 <= k < |r| ==> r[k] in order
  {
    if order == [] then []
    else Matches(order[..|order| - 1], libs) + EqualEntries(libs, order[|order| - 1])
  }

  /** Looking at one more library extends the entries equal to `name`. */
  lemma EqualEntriesStep(libs: seq<string>, name: string, j: nat)
    requires j < |libs|
    ensures EqualEntries(libs[..j + 1], name) ==
            EqualEntries(libs[..j], name) + (if libs[j] == name then [libs[j]] else [])
  {
    assert libs[..j + 1][..j] == libs[..j];
  }

  /** Looking at one more expected name appends its matches. */
  lemma MatchesStep(order: seq<string>, libs: seq<string>, i: nat)
    requires i < |order|
    ensures Matches(order[..i + 1], libs) == Matches(order[..i], libs) + EqualEntries(libs, order[i])
  {
    assert order[..i + 1][..i] == order[..i];
  }

  /** The result is grouped: the matches of a concatenated order are the
      matches of the first part followed by those of the second. */
  lemma {:induction false} MatchesAppend(o1: seq<string>, o2: seq<string>, libs: seq<string>)
    ensures Matches(o1 + o2, libs) == Matches(o1, libs) + Matches(o2, libs)
  {
    if o2 == [] {
      assert o1 + o2 == o1;
    } else {
      var n := |o2| - 1;
      MatchesAppend(o1, o2[..n], libs);
      assert (o1 + o2)[..|o1 + o2| - 1] == o1 + o2[..n];
    }
  }

  /** How one more expected name changes the counts in the order and in the
      result. */
  lemma MatchesCountStep(order: seq<string>, libs: seq<string>, x: string)
    requires order != []
    ensures var n := |order| - 1;
      && multiset(order)[x] == multiset(order[..n])[x] + (if order[n] == x then 1 else 0)
      && multiset(Matches(order, libs))[x] ==
         multiset(Matches(order[..n], libs))[x] + (if order[n] == x then multiset(libs)[x] else 0)
  {
    var n := |order| - 1;
    assert order == order[..n] + [order[n]];
    EqualEntriesCount(libs, order[n], x);
  }

  /** The arithmetic of one induction step: one more factor adds `b`. */
  lemma ProductStep(total: nat, prevTotal: nat, count: nat, prevCount: nat, b: nat, hit: bool)
    requires prevTotal == prevCount * b
    requires count == prevCount + (if hit then 1 else 0)
    requires total == prevTotal + (if hit then b else 0)
    ensures total == count * b
  {
    if hit {
      assert (prevCount + 1) * b == prevCount * b + b;
    }
  }

  lemma ProductPositive(a: nat, b: nat)
    ensures a * b > 0 <==> a > 0 && b > 0
  {
  }

  /** Each name occurs in the result once per (expected name, library)
      pair that are equal. */
  lemma {:induction false} MatchesMultiplicity(order: seq<string>, libs: seq<string>, x: string)
    ensures multiset(Matches(order, libs))[x] == multiset(order)[x] * multiset(libs)[x]
  {
    if order != [] {
      var n := |order| - 1;
      MatchesMultiplicity(order[..n], libs, x);
      MatchesCountStep(order, libs, x);
      ProductStep(multiset(Matches(order, libs))[x], multiset(Matches(order[..n], libs))[x],
                  multiset(order)[x], multiset(order[..n])[x], multiset(libs)[x], order[n] == x);
    }
  }

  /** A name is in the result exactly when it is both expected and found. */
  lemma MatchesMembership(order: seq<string>, libs: seq<string>, x: string)
    ensures x in Matches(order, libs) <==> x in order && x in libs
  {
    MatchesMultiplicity(order, libs, x);
    ProductPositive(multiset(order)[x], multiset(libs)[x]);
  }

  /** Sum, over the expected names, of how often each occurs in `libs`. */
  function OccurrenceSum(order: seq<string>, libs: seq<string>): nat
  {
    if order == [] then 0
    else OccurrenceSum(order[..|order| - 1], libs) + multiset(libs)[order[|order| - 1]]
  }

  /** The length of the result is the sum of the occurrence counts. */
  lemma {:induction false} MatchesLength(order: seq<string>, libs: seq<string>)
    ensures |Matches(order, libs)| == OccurrenceSum(order, libs)
  {
    if order != [] {
      var n := |order| - 1;
      MatchesLength(order[..n], libs);
      var e := EqualEntries(libs, order[n]);
      forall y ensures multiset(e)[y] == multiset{}[order[n] := multiset(libs)[order[n]]][y] {
        EqualEntriesCount(libs, order[n], y);
      }
      assert |e| == |multiset(e)|;
      assert multiset(e) == multiset{}[order[n] := multiset(libs)[order[n]]];
    }
  }

  /** The sequence in reverse order (`list.reverse()`). */
  function Reversed(s: seq<string>): (r: seq<string>)
    ensures |r| == |s|
    ensures forall k :: 0 <= k < |s| ==> r[k] == s[|s| - 1 - k]
  {
    if s == [] then [] else Reversed(s[1..]) + [s[0]]
  }

  /** Reversing keeps every element with its multiplicity. */
  lemma {:induction false} ReversedSameElements(s: seq<string>)
    ensures multiset(Reversed(s)) == multiset(s)
  {
    if s != [] {
      ReversedSameElements(s[1..]);
      assert s == [s[0]] + s[1..];
    }
  }

  /** Appends `libSuffix` to every name of `correctOrder` in place, then
      returns the entries of `libs` that equal an expected name, grouped in
      the order of `correctOrder`, reversed when `reverseResult` holds.
      `libs` is a value and is not changed. */
  method SortLibs(correctOrder: array<string>, libs: seq<string>, libSuffix: string, reverseResult: bool)
      returns (result: seq<string>)
    modifies correctOrder
    ensures correctOrder[..] == Suffixed(old(correctOrder[..]), libSuffix)
    ensures result == if reverseResult then Reversed(Matches(correctOrder[..], libs))
                      else Matches(correctOrder[..], libs)
  {
    ghost var original := correctOrder[..];
    var k := 0;
    while k < correctOrder.Length
      invariant 0 <= k <= correctOrder.Length
      invariant forall m :: 0 <= m < k ==> correctOrder[m] == original[m] + libSuffix
      invariant forall m :: k <= m < correctOrder.Length ==> correctOrder[m] == original[m]
    {
      correctOrder[k] := correctOrder[k] + libSuffix;
      k := k + 1;
    }
    assert correctOrder[..] == Suffixed(original, libSuffix);

    ghost var order := correctOrder[..];
    result := [];
    var i := 0;
    while i < correctOrder.Length
      invariant 0 <= i <= correctOrder.Length
      invariant correctOrder[..] == order
      invariant result == Matches(order[..i], libs)
    {
      var expectedLib := correctOrder[i];
      var j := 0;
      while j < |libs|
        invariant 0 <= j <= |libs|
        invariant correctOrder[..] == order
        invariant result == Matches(order[..i], libs) + EqualEntries(libs[..j], expectedLib)
      {
        EqualEntriesStep(libs, expectedLib, j);
        if expectedLib == libs[j] {
          result := result + [libs[j]];
        }
        j := j + 1;
      }
      assert libs[..j] == libs;
      MatchesStep(order, libs, i);
      i := i + 1;
    }
    assert order[..i] == order;

    if reverseResult {
      result := Reversed(result);
    }
  }
}
