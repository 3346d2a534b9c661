/** Small types shared by every module. */
module Common {

  datatype Option<+T> = None | Some(value: T) {
    function GetOr(default: T): T {
      match this
      case Some(v) => v
      case None => default
    }
  }

  datatype Leg = CE | PE {
    function Other(): Leg {
      match this
      case CE => PE
      case PE => CE
    }
  }

  lemma InitAndLast<T>(s: seq<T>)
    requires |s| > 0
    ensures s[..|s| - 1] + [s[|s| - 1]] == s
  {
  }

  function Min(a: int, b: int): int {
    if a <= b then a else b
  }

  function Max(a: int, b: int): int {
    if a >= b then a else b
  }

  function MaxReal(a: real, b: real): real {
    if a >= b then a else b
  }

  function MinReal(a: real, b: real): real {
    if a <= b then a else b
  }

  /** The last n elements, or all when there are fewer. */
  function LastOf<T>(s: seq<T>, n: nat): seq<T> {
    if |s| <= n then s else s[|s| - n..]
  }

  lemma LastOfAppend<T>(s: seq<T>, t: T, n: nat)
    requires n >= 1
    ensures LastOf(LastOf(s, n) + [t], n) == LastOf(s + [t], n)
  {
  }

  lemma LastOfLastOf<T>(s: seq<T>, m: nat, n: nat)
    ensures LastOf(LastOf(s, m), n) == LastOf(s, Min(n, m))
  {
  }
}
