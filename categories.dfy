/** The ingredient categories both add forms offer. */
module Categories {
  /** The six category options, all distinct, ending with the catch-all
      "other". */
  function Kinds(): (r: seq<string>)
    ensures |r| == 6
    ensures forall i, j :: 0 <= i < j < |r| ==> r[i] != r[j]
    ensures r[|r| - 1] == "기타"
  {
    ["채소", "과일", "단백질", "유제품", "배달음식", "기타"]
  }
}
