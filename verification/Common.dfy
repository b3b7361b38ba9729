/** Shared by the whole model. */
module Common {

  datatype Option<+T> = None | Some(value: T)

  predicate Below(s: seq<nat>, n: nat) { forall j :: 0 <= j < |s| ==> s[j] < n }

  predicate Increasing(s: seq<int>) { forall j, k :: 0 <= j < k < |s| ==> s[j] < s[k] }

  lemma TimesOrder(c: nat, a: int, b: int)
    requires a <= b
    ensures c * a <= c * b && a * c <= b * c
  {
  }

  lemma OneMoreTime(n: nat, w: nat)
    ensures (n + 1) * w == n * w + w && w * (n + 1) == w * n + w
  {
  }
}
