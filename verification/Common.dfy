/** Small shared vocabulary: optional values and facts about duplicate-free sequences. */
module Common {

  datatype Option<+T> = None | Some(value: T)

  ghost predicate NoDup<T>(s: seq<T>) {
    forall i, j :: 0 <= i < j < |s| ==> s[i] != s[j]
  }

  lemma NoDupCons<T>(x: T, rest: seq<T>)
    ensures NoDup([x] + rest) <==> NoDup(rest) && x !in rest
  {
    var all := [x] + rest;
    if x in rest {
      var j :| 0 <= j < |rest| && rest[j] == x;
      assert all[0] == all[j + 1];
    } else if !NoDup(rest) {
      var i, j :| 0 <= i < j < |rest| && rest[i] == rest[j];
      assert all[i + 1] == all[j + 1];
    } else {
      forall i, j | 0 <= i < j < |all| ensures all[i] != all[j] {
        assert all[j] == rest[j - 1] && rest[j - 1] in rest;
      }
    }
  }

  lemma NoDupTail<T>(s: seq<T>)
    requires NoDup(s) && s != []
    ensures NoDup(s[1..]) && s[0] !in s[1..]
    ensures forall x :: x in s[1..] ==> x in s && x != s[0]
  {
    var rest := s[1..];
    forall i, j | 0 <= i < j < |rest| ensures rest[i] != rest[j] { assert s[i + 1] == rest[i] && s[j + 1] == rest[j]; }
    forall x | x in rest ensures x in s && x != s[0] {
      var i :| 0 <= i < |rest| && rest[i] == x;
      assert s[i + 1] == x;
    }
  }
}
