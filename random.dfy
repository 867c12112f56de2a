/** Random draws and the Fisher-Yates shuffle shared by the games.
    A draw is any value in its range; a shuffle is some permutation. */
module Random {
  /** `Math.floor(Math.random() * (hi - lo + 1)) + lo`: some integer in `[lo, hi]`. */
  method Rand(lo: int, hi: int) returns (x: int)
    requires lo <= hi
    ensures lo <= x <= hi
  {
    x :| lo <= x <= hi;
  }

  /** Copies the input and swaps each cell `i`, from the last down to 1,
      with a cell `j` drawn from `[0, i]`. The input is a value and stays as it was. */
  method Shuffle<T>(a: seq<T>) returns (r: seq<T>)
    ensures |r| == |a|
    ensures multiset(r) == multiset(a)
  {
    var arr := new T[|a|](k requires 0 <= k < |a| => a[k]);
    assert arr[..] == a;
    var i := arr.Length - 1;
    while i > 0
      invariant -1 <= i < arr.Length
      invariant multiset(arr[..]) == multiset(a)
    {
      var j := Rand(0, i);
      arr[i], arr[j] := arr[j], arr[i];
      i := i - 1;
    }
    r := arr[..];
  }
}
