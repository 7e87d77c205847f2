/** Counting repeated names: the verifiers walk a list keeping a set of the names
    seen so far and report every name met again. */
module Duplicates {
  import opened JsValues

  /** The names are pairwise distinct. */
  predicate Distinct(s: seq<string>) {
    forall i, j | 0 <= i < j < |s| :: s[i] != s[j]
  }

  /** The set of names in `s`, gathered from the front as a loop adds them. */
  function Elements(s: seq<string>): set<string> {
    if s == [] then {} else Elements(s[..|s| - 1]) + {s[|s| - 1]}
  }

  lemma {:induction false} ElementsMember(s: seq<string>, x: string)
    ensures x in Elements(s) <==> x in s
  {
    if s != [] {
      var init := s[..|s| - 1];
      ElementsMember(init, x);
      assert s == init + [s[|s| - 1]];
    }
  }

  lemma ElementsSnoc(s: seq<string>, x: string)
    ensures Elements(s + [x]) == Elements(s) + {x}
  {
    assert (s + [x])[..|s|] == s;
  }

  /** The number of positions whose name already occurs earlier in the list. */
  function Repeats(s: seq<string>): nat {
    if s == [] then 0
    else
      var init := s[..|s| - 1];
      Repeats(init) + (if s[|s| - 1] in init then 1 else 0)
  }

  /** Each name counts once, every later occurrence is a repeat. */
  lemma {:induction false} RepeatsCount(s: seq<string>)
    ensures Repeats(s) + |Elements(s)| == |s|
  {
    if s != [] {
      var init := s[..|s| - 1];
      var last := s[|s| - 1];
      RepeatsCount(init);
      ElementsMember(init, last);
      if last in init {
        assert Elements(s) == Elements(init);
      } else {
        assert Elements(s) == Elements(init) + {last};
      }
    }
  }

  /** No name repeats exactly when the names are distinct. */
  lemma {:induction false} RepeatsZero(s: seq<string>)
    ensures Repeats(s) == 0 <==> Distinct(s)
  {
    if s != [] {
      var n := |s| - 1;
      var init := s[..n];
      RepeatsZero(init);
      if Distinct(s) {
        assert Distinct(init) by {
          forall i, j | 0 <= i < j < |init| ensures init[i] != init[j] {
            assert init[i] == s[i] && init[j] == s[j];
          }
        }
        assert s[n] !in init by {
          forall i | 0 <= i < n ensures init[i] != s[n] {
            assert init[i] == s[i];
          }
        }
      }
      if Repeats(s) == 0 {
        forall i, j | 0 <= i < j < |s| ensures s[i] != s[j] {
          if j < n {
            assert init[i] == s[i] && init[j] == s[j];
          } else {
            assert init[i] == s[i] && init[i] in init;
          }
        }
      }
    }
  }

  /** The number of elements of `s` satisfying `p`. */
  function Count<T>(s: seq<T>, p: T -> bool): nat {
    if s == [] then 0 else (if p(s[0]) then 1 else 0) + Count(s[1..], p)
  }

  lemma {:induction false} CountAppend<T>(a: seq<T>, b: seq<T>, p: T -> bool)
    ensures Count(a + b, p) == Count(a, p) + Count(b, p)
  {
    if a != [] {
      assert (a + b)[0] == a[0] && (a + b)[1..] == a[1..] + b;
      CountAppend(a[1..], b, p);
    } else {
      assert a + b == b;
    }
  }

  /** A list none of whose elements satisfies `p` counts zero. */
  lemma {:induction false} CountNone<T>(s: seq<T>, p: T -> bool)
    requires forall x | x in s :: !p(x)
    ensures Count(s, p) == 0
  {
    if s != [] {
      assert s[0] in s;
      assert forall x | x in s[1..] :: x in s;
      CountNone(s[1..], p);
    }
  }

  /** A list all of whose elements satisfy `p` counts its length. */
  lemma {:induction false} CountAll<T>(s: seq<T>, p: T -> bool)
    requires forall x | x in s :: p(x)
    ensures Count(s, p) == |s|
  {
    if s != [] {
      assert s[0] in s;
      assert forall x | x in s[1..] :: x in s;
      CountAll(s[1..], p);
    }
  }

  /** Appending a name keeps the list distinct exactly when the name is new. */
  lemma DistinctSnoc(s: seq<string>, x: string)
    ensures Distinct(s + [x]) <==> Distinct(s) && x !in s
  {
    var t := s + [x];
    if Distinct(t) {
      forall i | 0 <= i < |s| ensures s[i] != x {
        assert t[i] == s[i] && t[|s|] == x;
      }
      forall i, j | 0 <= i < j < |s| ensures s[i] != s[j] {
        assert t[i] == s[i] && t[j] == s[j];
      }
    }
    if Distinct(s) && x !in s {
      forall i, j | 0 <= i < j < |t| ensures t[i] != t[j] {
        if j < |s| {
          assert t[i] == s[i] && t[j] == s[j];
        } else {
          assert t[i] == s[i] && s[i] in s;
        }
      }
    }
  }

  /** The messages a loop emits for each name it has already seen. */
  function RepeatErrors<T>(s: seq<string>, message: string -> T): seq<T> {
    if s == [] then []
    else
      var init := s[..|s| - 1];
      RepeatErrors(init, message) + (if s[|s| - 1] in init then [message(s[|s| - 1])] else [])
  }

  /** One message per repeat, so none for distinct names. */
  lemma {:induction false} RepeatErrorsCount<T>(s: seq<string>, message: string -> T)
    ensures |RepeatErrors(s, message)| == Repeats(s)
    ensures Distinct(s) ==> RepeatErrors(s, message) == []
  {
    RepeatsZero(s);
    if s != [] {
      RepeatErrorsCount(s[..|s| - 1], message);
    }
  }

  /** When every element contributes one item if it satisfies `p` and none otherwise,
      the items are as many as the elements satisfying `p`. */
  lemma {:induction false} FlatMapCount<T, U>(s: seq<T>, f: T -> seq<U>, p: T -> bool)
    requires forall t | t in s :: |f(t)| == (if p(t) then 1 else 0)
    ensures |FlatMap(s, f)| == Count(s, p)
  {
    if s != [] {
      var init, last := s[..|s| - 1], s[|s| - 1];
      assert s == init + [last];
      assert forall t | t in init :: t in s;
      FlatMapCount(init, f, p);
      CountAppend(init, [last], p);
      assert Count([last], p) == (if p(last) then 1 else 0) by {
        assert [last][1..] == [];
      }
    }
  }

  // ---------------------------------------------------------------------------
  // A loop that checks each element and reports the ones whose key it has seen

  /** The keys of the elements, in order. */
  function Project<T>(s: seq<T>, key: T -> string): (r: seq<string>)
    ensures |r| == |s|
    ensures forall i | 0 <= i < |s| :: r[i] == key(s[i])
  {
    if s == [] then [] else Project(s[..|s| - 1], key) + [key(s[|s| - 1])]
  }

  /** The messages of a loop that, for each element in turn, pushes the element's own
      `checks` and then `repeat` of it when its key was met earlier in the list. */
  function Walk<T, U>(s: seq<T>, key: T -> string, checks: T -> seq<U>, repeat: T -> U): seq<U> {
    if s == [] then []
    else
      var init, last := s[..|s| - 1], s[|s| - 1];
      Walk(init, key, checks, repeat) + checks(last)
      + (if key(last) in Project(init, key) then [repeat(last)] else [])
  }

  /** One more pass of the loop: the messages of one more element, one more key seen. */
  lemma WalkSnoc<T, U>(s: seq<T>, i: int, key: T -> string, checks: T -> seq<U>, repeat: T -> U)
    requires 0 <= i < |s|
    ensures Walk(s[..i + 1], key, checks, repeat)
      == Walk(s[..i], key, checks, repeat) + checks(s[i])
         + (if key(s[i]) in Project(s[..i], key) then [repeat(s[i])] else [])
  {
    assert s[..i + 1][..i] == s[..i];
  }

  /** The same pass, stated on the list done so far and the next element. */
  lemma WalkAppend<T, U>(s: seq<T>, x: T, key: T -> string, checks: T -> seq<U>, repeat: T -> U)
    ensures Walk(s + [x], key, checks, repeat)
      == Walk(s, key, checks, repeat) + checks(x) + (if key(x) in Project(s, key) then [repeat(x)] else [])
    ensures Elements(Project(s + [x], key)) == Elements(Project(s, key)) + {key(x)}
  {
    assert (s + [x])[..|s|] == s;
    ElementsSnoc(Project(s, key), key(x));
  }

  lemma ProjectSnoc<T>(s: seq<T>, i: int, key: T -> string)
    requires 0 <= i < |s|
    ensures Elements(Project(s[..i + 1], key)) == Elements(Project(s[..i], key)) + {key(s[i])}
  {
    assert s[..i + 1][..i] == s[..i];
    ElementsSnoc(Project(s[..i], key), key(s[i]));
  }

  /** The loop reports nothing exactly when no element fails its checks and the keys are
      distinct. */
  lemma {:induction false} WalkEmpty<T, U>(s: seq<T>, key: T -> string, checks: T -> seq<U>, repeat: T -> U)
    ensures Walk(s, key, checks, repeat) == [] <==> Distinct(Project(s, key)) && forall t | t in s :: checks(t) == []
  {
    if s != [] {
      var init, last := s[..|s| - 1], s[|s| - 1];
      WalkEmpty(init, key, checks, repeat);
      assert s == init + [last];
      assert Project(s, key) == Project(init, key) + [key(last)];
      DistinctSnoc(Project(init, key), key(last));
      assert forall t | t in init :: t in s;
    }
  }

  /** When no check message reads as a repeat and every repeat message does, the repeat
      messages are exactly as many as the repeated keys. */
  lemma {:induction false} WalkRepeats<T, U>(s: seq<T>, key: T -> string, checks: T -> seq<U>, repeat: T -> U,
                                            isRepeat: U -> bool)
    requires forall t, e | t in s && e in checks(t) :: !isRepeat(e)
    requires forall t | t in s :: isRepeat(repeat(t))
    ensures Count(Walk(s, key, checks, repeat), isRepeat) == Repeats(Project(s, key))
  {
    if s != [] {
      var init, last := s[..|s| - 1], s[|s| - 1];
      assert s == init + [last];
      assert forall t | t in init :: t in s;
      WalkRepeats(init, key, checks, repeat, isRepeat);
      assert Project(s, key)[..|s| - 1] == Project(init, key);
      WalkCountSnoc(s, key, checks, repeat, isRepeat);
      assert last in s;
      CountNone(checks(last), isRepeat);
    }
  }

  /** The messages counted for one more element: those of its own checks, and its
      repeat message when its key was met before and that message counts. */
  lemma WalkCountSnoc<T, U>(s: seq<T>, key: T -> string, checks: T -> seq<U>, repeat: T -> U, p: U -> bool)
    requires s != []
    ensures var init, last := s[..|s| - 1], s[|s| - 1];
      Count(Walk(s, key, checks, repeat), p)
      == Count(Walk(init, key, checks, repeat), p) + Count(checks(last), p)
         + (if key(last) in Project(init, key) && p(repeat(last)) then 1 else 0)
  {
    var init, last := s[..|s| - 1], s[|s| - 1];
    var w := Walk(init, key, checks, repeat);
    var tail: seq<U> := if key(last) in Project(init, key) then [repeat(last)] else [];
    CountAppend(w + checks(last), tail, p);
    CountAppend(w, checks(last), p);
    if tail != [] {
      assert tail[1..] == [];
    }
  }

  /** An element whose key occurs earlier in the list is reported. */
  lemma {:induction false} WalkReportsRepeat<T, U>(s: seq<T>, key: T -> string, checks: T -> seq<U>, repeat: T -> U,
                                                   i: int, j: int)
    requires 0 <= i < j < |s| && key(s[i]) == key(s[j])
    ensures repeat(s[j]) in Walk(s, key, checks, repeat)
  {
    var init, last := s[..|s| - 1], s[|s| - 1];
    if j == |s| - 1 {
      assert Project(init, key)[i] == key(s[i]);
    } else {
      assert init[i] == s[i] && init[j] == s[j];
      WalkReportsRepeat(init, key, checks, repeat, i, j);
    }
  }

  /** Every check message of every element is reported. */
  lemma {:induction false} WalkReportsChecks<T, U>(s: seq<T>, key: T -> string, checks: T -> seq<U>, repeat: T -> U,
                                                   t: T, e: U)
    requires t in s && e in checks(t)
    ensures e in Walk(s, key, checks, repeat)
  {
    var init, last := s[..|s| - 1], s[|s| - 1];
    if t != last {
      assert s == init + [last];
      WalkReportsChecks(init, key, checks, repeat, t, e);
    }
  }

  /** Every message comes from the checks of an element or reports an element. */
  lemma {:induction false} WalkMessages<T, U>(s: seq<T>, key: T -> string, checks: T -> seq<U>, repeat: T -> U, e: U)
    requires e in Walk(s, key, checks, repeat)
    ensures exists t :: t in s && (e in checks(t) || e == repeat(t))
  {
    var init, last := s[..|s| - 1], s[|s| - 1];
    assert s == init + [last];
    if e !in checks(last) && e != repeat(last) {
      WalkMessages(init, key, checks, repeat, e);
      var t :| t in init && (e in checks(t) || e == repeat(t));
      assert t in s;
    }
  }

  /** Checks that agree on every element give the same messages. */
  lemma {:induction false} WalkCongruence<T, U>(s: seq<T>, key: T -> string, f: T -> seq<U>, g: T -> seq<U>,
                                                repeat: T -> U)
    requires forall t | t in s :: f(t) == g(t)
    ensures Walk(s, key, f, repeat) == Walk(s, key, g, repeat)
  {
    if s != [] {
      var init := s[..|s| - 1];
      assert forall t | t in init :: t in s;
      assert s[|s| - 1] in s;
      WalkCongruence(init, key, f, g, repeat);
    }
  }
}
