/** The two integer helpers shared by the cost formula and the store's paging. */
module MinMax {
  function Max(a: int, b: int): int { if a >= b then a else b }
  function Min(a: int, b: int): int { if a <= b then a else b }
}
