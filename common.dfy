/** pkg/tencentcloud/common.go: `isExist`, membership by binary search.
    The search is `sort.SearchStrings`, which is only meaningful on a sorted
    slice; `isExist` does not sort (the in-place sort is commented out in the
    source) and leaves the sorting to its callers. */
module Common {
  import opened Strings

  /** `sort.SearchStrings(a, x)`: the binary search of `sort.Search` with the
      test `a[h] >= x`. Always an index in `0..|a|`; on a sorted `a` it is the
      first position whose element is not below `x`. */
  method SearchStrings(a: seq<string>, x: string) returns (i: nat)
    ensures i <= |a|
    ensures Sorted(a) ==> forall k :: 0 <= k < i ==> !Le(x, a[k])
    ensures Sorted(a) ==> forall k :: i <= k < |a| ==> Le(x, a[k])
  {
    var lo, hi := 0, |a|;
    while lo < hi
      invariant 0 <= lo <= hi <= |a|
      invariant Sorted(a) ==> forall k :: 0 <= k < lo ==> !Le(x, a[k])
      invariant Sorted(a) ==> forall k :: hi <= k < |a| ==> Le(x, a[k])
      decreases hi - lo
    {
      var h := (lo + hi) / 2;
      if !Le(x, a[h]) {
        if Sorted(a) {
          forall k | 0 <= k <= h ensures !Le(x, a[k]) {
            if k < h && Le(x, a[k]) { LeTrans(x, a[k], a[h]); }
          }
        }
        lo := h + 1;
      } else {
        if Sorted(a) {
          forall k | h <= k < |a| ensures Le(x, a[k]) {
            if h < k { LeTrans(x, a[h], a[k]); }
          }
        }
        hi := h;
      }
    }
    i := lo;
  }

  /** `isExist(target, strArray)`. A true answer is always a real
      occurrence; on a sorted array the answer is exactly membership. */
  method IsExist(target: string, strArray: seq<string>) returns (found: bool)
    ensures found ==> target in strArray
    ensures Sorted(strArray) ==> (found <==> target in strArray)
  {
    var index := SearchStrings(strArray, target);
    found := index < |strArray| && strArray[index] == target;
    if Sorted(strArray) && !found && target in strArray {
      ghost var k :| 0 <= k < |strArray| && strArray[k] == target;
      LeRefl(target);
      assert index <= k;
      assert Le(strArray[index], strArray[k]);
      LeAntisym(target, strArray[index]);
      assert false;
    }
  }
}
