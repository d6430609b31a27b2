/**
 * The score table and the scorer of the personality quiz (js/app.js,
 * `scores` and `calculateResult`).
 *
 * `Delta` says, key by key, what one answered question adds to the table;
 * `Score` sums those contributions over the whole questionnaire.  The
 * imperative scorer in module Session follows the source's string-based
 * key lookups and is proved to compute `Score`.
 */
module Scoring {
  import opened Options

  /** The ten keys of the score table, in the order the source declares them. */
  datatype Key = S1 | M1 | P1 | V2 | M2 | G2 | A3 | M3 | E3 | CL

  /** The property name under which the score object stores a key. */
  function Name(k: Key): string
  {
    match k
    case S1 => "S1"
    case M1 => "M1"
    case P1 => "P1"
    case V2 => "V2"
    case M2 => "M2"
    case G2 => "G2"
    case A3 => "A3"
    case M3 => "M3"
    case E3 => "E3"
    case CL => "CL"
  }

  /** The key of the ten-key table that a property name denotes, if any. */
  function KeyNamed(name: string): (r: Option<Key>)
    ensures r.Some? ==> Name(r.value) == name
    ensures r.None? ==> forall k: Key :: Name(k) != name
  {
    if name == "S1" then Some(S1)
    else if name == "M1" then Some(M1)
    else if name == "P1" then Some(P1)
    else if name == "V2" then Some(V2)
    else if name == "M2" then Some(M2)
    else if name == "G2" then Some(G2)
    else if name == "A3" then Some(A3)
    else if name == "M3" then Some(M3)
    else if name == "E3" then Some(E3)
    else if name == "CL" then Some(CL)
    else None
  }

  /** The axis group a key belongs to (1, 2 or 3); 0 for CL, which has none. */
  function Group(k: Key): nat
  {
    match k
    case S1 | M1 | P1 => 1
    case V2 | M2 | G2 => 2
    case A3 | M3 | E3 => 3
    case CL => 0
  }

  const AllKeys: set<Key> := {S1, M1, P1, V2, M2, G2, A3, M3, E3, CL}

  /** The keys in declaration order: the order a `for...in` loop visits them. */
  const KeyOrder: seq<Key> := [S1, M1, P1, V2, M2, G2, A3, M3, E3, CL]

  /** A score table: an integer for each of the ten keys. */
  type Scores = map<Key, int>

  /** A table that holds every one of the ten keys. */
  predicate Complete(s: Scores)
  {
    forall k: Key :: k in s
  }

  lemma AllKeysCovered()
    ensures forall k: Key :: k in AllKeys && k in KeyOrder
  {
    forall k: Key
      ensures k in AllKeys && k in KeyOrder
    {
      match k
      case S1 => case M1 => case P1 => case V2 => case M2 =>
      case G2 => case A3 => case M3 => case E3 => case CL =>
    }
  }

  /** The table every scoring pass and every restart starts from. */
  function Zero(): (z: Scores)
    ensures Complete(z)
    ensures forall k :: k in z ==> z[k] == 0
  {
    AllKeysCovered();
    map k | k in AllKeys :: 0
  }

  /**
   * A question, reduced to what scoring reads: whether it offers three
   * choices, the key it targets, and its optional `scoreEffect` field.
   */
  datatype Question = Question(isMChoice: bool, target: Key, scoreEffect: Option<int>)

  /** The key answer index 0 of a three-choice question adds to. */
  function FirstPole(t: Key): Key
  {
    if Group(t) == 1 then S1 else if Group(t) == 2 then V2 else A3
  }

  /** The key answer index 1 of a three-choice question adds to. */
  function SecondPole(t: Key): Key
  {
    if Group(t) == 1 then P1 else if Group(t) == 2 then G2 else E3
  }

  /**
   * The key answer index 2 of a three-choice question adds to: `M` followed
   * by the group digit.  For a CL target that name ("ML") is not one of the
   * ten keys, so nothing in the table changes.
   */
  function MiddlePole(t: Key): Option<Key>
  {
    if Group(t) == 1 then Some(M1)
    else if Group(t) == 2 then Some(M2)
    else if Group(t) == 3 then Some(M3)
    else None
  }

  /** What question `q`, answered with `a`, adds to key `k`. */
  function Delta(q: Question, a: Option<int>, k: Key): (d: int)
    ensures a.None? ==> d == 0
    ensures q.isMChoice ==> d == 0 || d == 2
    ensures q.isMChoice && d != 0 ==>
      Group(k) == Group(q.target) || (q.target == CL && (k == A3 || k == E3))
    ensures !q.isMChoice && d != 0 ==> k == q.target
  {
    match a
    case None => 0
    case Some(v) =>
      if q.isMChoice then
        if v == 0 then (if k == FirstPole(q.target) then 2 else 0)
        else if v == 1 then (if k == SecondPole(q.target) then 2 else 0)
        else if v == 2 then (if MiddlePole(q.target) == Some(k) then 2 else 0)
        else 0
      else if q.target == CL then
        (if k == CL then (if q.scoreEffect == Some(1) then v else -v) else 0)
      else if k == q.target then v
      else 0
  }

  /**
   * The second character of a key's name is its group digit, and `M`
   * followed by that digit names the group's middle key.
   */
  lemma GroupDigit(t: Key)
    ensures Name(t)[1] == '1' <==> Group(t) == 1
    ensures Name(t)[1] == '2' <==> Group(t) == 2
    ensures KeyNamed(['M', Name(t)[1]]) == MiddlePole(t)
  {
  }

  /** A question paired with its answer slot. */
  type Response = (Question, Option<int>)

  function Zip(qs: seq<Question>, ans: seq<Option<int>>): seq<Response>
    requires |qs| == |ans|
  {
    seq(|qs|, i requires 0 <= i < |qs| => (qs[i], ans[i]))
  }

  /** The sum of the contributions of `rs` to key `k`. */
  function Total(rs: seq<Response>, k: Key): int
  {
    if rs == [] then 0
    else Total(rs[..|rs| - 1], k) + Delta(rs[|rs| - 1].0, rs[|rs| - 1].1, k)
  }

  /** The score table after a scoring pass over `qs` answered with `ans`. */
  function Score(qs: seq<Question>, ans: seq<Option<int>>): (s: Scores)
    requires |qs| == |ans|
    ensures Complete(s)
  {
    AllKeysCovered();
    map k | k in AllKeys :: Total(Zip(qs, ans), k)
  }

  // ---------------------------------------------------------------------
  // What a single question contributes
  // ---------------------------------------------------------------------

  /** An unanswered question and an answer that is no valid index add nothing. */
  lemma NoContribution(q: Question, a: Option<int>, k: Key)
    requires a.None? || (q.isMChoice && a.value != 0 && a.value != 1 && a.value != 2)
    ensures Delta(q, a, k) == 0
  {
  }

  /** Every question changes at most one key of the table. */
  lemma DeltaTouchesOneKey(q: Question, a: Option<int>, k1: Key, k2: Key)
    requires Delta(q, a, k1) != 0 && Delta(q, a, k2) != 0
    ensures k1 == k2
  {
  }

  /**
   * A three-choice question of group 1, 2 or 3 adds exactly 2 to one key of
   * its own group: a first pole (S1, V2, A3) for index 0, a second pole
   * (P1, G2, E3) for index 1, a middle key (M1, M2, M3) for index 2.
   */
  lemma ThreeChoiceContribution(q: Question, v: int, k: Key)
    requires q.isMChoice && q.target != CL
    ensures Delta(q, Some(v), k) ==
      if Group(k) == Group(q.target) &&
         ((v == 0 && k in {S1, V2, A3}) ||
          (v == 1 && k in {P1, G2, E3}) ||
          (v == 2 && k in {M1, M2, M3}))
      then 2 else 0
  {
  }

  /**
   * A three-choice question that targets CL has no group digit: index 0 and
   * 1 fall through to A3 and E3, and index 2 changes none of the ten keys.
   */
  lemma ThreeChoiceOnCl(q: Question, v: int, k: Key)
    requires q.isMChoice && q.target == CL
    ensures Delta(q, Some(v), k) ==
      if (v == 0 && k == A3) || (v == 1 && k == E3) then 2 else 0
  {
  }

  /**
   * A scale question on CL adds its answer when `scoreEffect` is 1 and the
   * negated answer for any other value; a scale question on another key adds
   * the answer to that key.  Nothing else changes.
   */
  lemma ScaleContribution(q: Question, v: int, k: Key)
    requires !q.isMChoice
    ensures k != q.target ==> Delta(q, Some(v), k) == 0
    ensures q.target != CL ==> Delta(q, Some(v), q.target) == v
    ensures q.target == CL ==>
      Delta(q, Some(v), CL) == (if q.scoreEffect == Some(1) then v else -v)
  {
  }

  // ---------------------------------------------------------------------
  // The score of a whole questionnaire
  // ---------------------------------------------------------------------

  lemma ZipPrefix(qs: seq<Question>, ans: seq<Option<int>>, i: nat)
    requires |qs| == |ans| && i < |qs|
    ensures Zip(qs[..i + 1], ans[..i + 1]) == Zip(qs[..i], ans[..i]) + [(qs[i], ans[i])]
  {
  }

  /**
   * Scoring one more question adds its contribution to the table scored so
   * far: the step the source's `forEach` takes.
   */
  lemma {:induction false} ScoreStep(qs: seq<Question>, ans: seq<Option<int>>, i: nat)
    requires |qs| == |ans| && i < |qs|
    ensures forall k :: Score(qs[..i + 1], ans[..i + 1])[k] ==
                        Score(qs[..i], ans[..i])[k] + Delta(qs[i], ans[i], k)
  {
    var rs := Zip(qs[..i + 1], ans[..i + 1]);
    ZipPrefix(qs, ans, i);
    assert rs[..|rs| - 1] == Zip(qs[..i], ans[..i]);
  }

  /** A table that adds question i's contribution to the score of the first i questions is the score of the first i + 1. */
  lemma ScoreAdvance(qs: seq<Question>, ans: seq<Option<int>>, i: nat, before: Scores, after: Scores)
    requires |qs| == |ans| && i < |qs|
    requires before == Score(qs[..i], ans[..i])
    requires Complete(after)
    requires forall k :: k in after ==> after[k] == before[k] + Delta(qs[i], ans[i], k)
    ensures after == Score(qs[..i + 1], ans[..i + 1])
  {
    ScoreStep(qs, ans, i);
    AllKeysCovered();
    var next := Score(qs[..i + 1], ans[..i + 1]);
    assert after.Keys == next.Keys;
    forall k | k in after
      ensures after[k] == next[k]
    {
    }
  }

  lemma {:induction false} TotalUnanswered(rs: seq<Response>, k: Key)
    requires forall i :: 0 <= i < |rs| ==> rs[i].1 == None
    ensures Total(rs, k) == 0
  {
    if rs != [] {
      TotalUnanswered(rs[..|rs| - 1], k);
    }
  }

  /** With every slot unanswered, every key scores 0. */
  lemma {:induction false} ScoreUnanswered(qs: seq<Question>, ans: seq<Option<int>>)
    requires |qs| == |ans|
    requires forall i :: 0 <= i < |ans| ==> ans[i] == None
    ensures Score(qs, ans) == Zero()
  {
    forall k | k in AllKeys
      ensures Score(qs, ans)[k] == 0
    {
      TotalUnanswered(Zip(qs, ans), k);
    }
  }

  /** Taking one response out of the middle takes its contribution out of the total. */
  lemma {:induction false} TotalRemove(rs: seq<Response>, i: nat, k: Key)
    requires i < |rs|
    ensures Total(rs, k) == Total(rs[..i] + rs[i + 1..], k) + Delta(rs[i].0, rs[i].1, k)
    decreases |rs|
  {
    var n := |rs|;
    if i == n - 1 {
      assert rs[..i] + rs[i + 1..] == rs[..n - 1];
    } else {
      var front := rs[..n - 1];
      TotalRemove(front, i, k);
      var rest := rs[..i] + rs[i + 1..];
      assert rest[..|rest| - 1] == front[..i] + front[i + 1..];
      assert rest[|rest| - 1] == rs[n - 1];
    }
  }

  lemma MultisetRemove(ts: seq<Response>, j: nat)
    requires j < |ts|
    ensures multiset(ts[..j] + ts[j + 1..]) == multiset(ts) - multiset{ts[j]}
  {
    assert ts == ts[..j] + [ts[j]] + ts[j + 1..];
  }

  /** The total does not depend on the order of the responses. */
  lemma {:induction false} TotalPermutation(rs: seq<Response>, ts: seq<Response>, k: Key)
    requires multiset(rs) == multiset(ts)
    ensures Total(rs, k) == Total(ts, k)
    decreases |rs|
  {
    if rs == [] {
      assert |ts| == |multiset(ts)| == 0;
    } else {
      var n := |rs|;
      var x := rs[n - 1];
      assert x in multiset(ts);
      assert x in ts;
      var j :| 0 <= j < |ts| && ts[j] == x;
      var ts' := ts[..j] + ts[j + 1..];
      MultisetRemove(rs, n - 1);
      MultisetRemove(ts, j);
      assert rs[..n - 1] + rs[n..] == rs[..n - 1];
      assert multiset(rs[..n - 1]) == multiset(ts');
      TotalPermutation(rs[..n - 1], ts', k);
      TotalRemove(ts, j, k);
      assert Total(rs, k) == Total(rs[..n - 1], k) + Delta(x.0, x.1, k);
    }
  }

  /**
   * Scoring is order-independent: permuting the questions, each keeping
   * its answer, yields the same table.
   */
  lemma ScorePermutation(qs: seq<Question>, ans: seq<Option<int>>,
                         qs': seq<Question>, ans': seq<Option<int>>)
    requires |qs| == |ans| && |qs'| == |ans'|
    requires multiset(Zip(qs, ans)) == multiset(Zip(qs', ans'))
    ensures Score(qs, ans) == Score(qs', ans')
  {
    forall k | k in AllKeys
      ensures Score(qs, ans)[k] == Score(qs', ans')[k]
    {
      TotalPermutation(Zip(qs, ans), Zip(qs', ans'), k);
    }
  }
}
