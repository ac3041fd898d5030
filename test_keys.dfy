/**
  The 129 keys of the unordered-set comparison tests, and the proof that no
  key occurs twice among them.
*/
module TestKeys {
  import opened UnorderedSet

  /** The 129 keys, in the order of the tests, written as six parts of at most 22 keys. */
  const INIT_SEQ: seq<int> := INIT_PART_0 + INIT_PART_1 + INIT_PART_2 + INIT_PART_3 + INIT_PART_4 + INIT_PART_5

  const INIT_PART_0: seq<int> := [
    19, 1, 2, 4, 5, 6, 7, 8, 9, 10, 11,
    111, 1112, 1115, 1118, 1110, 1977, 177, 277, 477, 577, 677
  ]
  const INIT_PART_1: seq<int> := [
    777, 877, 977, 1077, 1177, 11177, 111277, 111577, 111877, 111077, 1999,
    199, 299, 499, 599, 699, 799, 899, 999, 1099, 1199, 11199
  ]
  const INIT_PART_2: seq<int> := [
    111299, 111599, 111899, 111099, 197799, 17799, 27799, 47799, 57799, 67799, 77799,
    87799, 97799, 107799, 117799, 1117799, 11127799, 11157799, 11187799, 11107799, 1988, 188
  ]
  const INIT_PART_3: seq<int> := [
    288, 488, 588, 688, 788, 888, 988, 1088, 1188, 11188, 111288,
    111588, 111888, 111088, 197788, 17788, 27788, 47788, 57788, 67788, 77788, 87788
  ]
  const INIT_PART_4: seq<int> := [
    97788, 107788, 117788, 1117788, 11127788, 11157788, 11187788, 11107788, 199988, 19988, 29988,
    49988, 59988, 69988, 79988, 89988, 99988, 109988, 119988, 1119988, 11129988, 11159988
  ]
  const INIT_PART_5: seq<int> := [
    11189988, 11109988, 19779988, 1779988, 2779988, 4779988, 5779988, 6779988, 7779988, 8779988, 9779988,
    10779988, 11779988, 111779988, 1112779988, 1115779988, 1118779988, 1110779988, 456
  ]

  /**
    The position of a key in INIT_SEQ, or -1 for any other integer, found by
    comparing with the keys in increasing order of value.
  */
  function TestKeyPosition(x: int): int
  {
    if x < 59988 then
      if x < 888 then
        if x < 288 then
          if x < 10 then
            if x < 6 then
              if x < 4 then
                if x < 2 then
                  if x == 1 then 1 else -1
                else
                  if x == 2 then 2 else -1
              else
                if x < 5 then
                  if x == 4 then 3 else -1
                else
                  if x == 5 then 4 else -1
            else
              if x < 8 then
                if x < 7 then
                  if x == 6 then 5 else -1
                else
                  if x == 7 then 6 else -1
              else
                if x < 9 then
                  if x == 8 then 7 else -1
                else
                  if x == 9 then 8 else -1
          else
            if x < 177 then
              if x < 19 then
                if x < 11 then
                  if x == 10 then 9 else -1
                else
                  if x == 11 then 10 else -1
              else
                if x < 111 then
                  if x == 19 then 0 else -1
                else
                  if x == 111 then 11 else -1
            else
              if x < 199 then
                if x < 188 then
                  if x == 177 then 17 else -1
                else
                  if x == 188 then 65 else -1
              else
                if x < 277 then
                  if x == 199 then 33 else -1
                else
                  if x == 277 then 18 else -1
        else
          if x < 599 then
            if x < 488 then
              if x < 456 then
                if x < 299 then
                  if x == 288 then 66 else -1
                else
                  if x == 299 then 34 else -1
              else
                if x < 477 then
                  if x == 456 then 128 else -1
                else
                  if x == 477 then 19 else -1
            else
              if x < 577 then
                if x < 499 then
                  if x == 488 then 67 else -1
                else
                  if x == 499 then 35 else -1
              else
                if x < 588 then
                  if x == 577 then 20 else -1
                else
                  if x == 588 then 68 else -1
          else
            if x < 777 then
              if x < 688 then
                if x < 677 then
                  if x == 599 then 36 else -1
                else
                  if x == 677 then 21 else -1
              else
                if x < 699 then
                  if x == 688 then 69 else -1
                else
                  if x == 699 then 37 else -1
            else
              if x < 799 then
                if x < 788 then
                  if x == 777 then 22 else -1
                else
                  if x == 788 then 70 else -1
              else
                if x < 877 then
                  if x == 799 then 38 else -1
                else
                  if x == 877 then 23 else -1
      else
        if x < 1988 then
          if x < 1110 then
            if x < 999 then
              if x < 977 then
                if x < 899 then
                  if x == 888 then 71 else -1
                else
                  if x == 899 then 39 else -1
              else
                if x < 988 then
                  if x == 977 then 24 else -1
                else
                  if x == 988 then 72 else -1
            else
              if x < 1088 then
                if x < 1077 then
                  if x == 999 then 40 else -1
                else
                  if x == 1077 then 25 else -1
              else
                if x < 1099 then
                  if x == 1088 then 73 else -1
                else
                  if x == 1099 then 41 else -1
          else
            if x < 1177 then
              if x < 1115 then
                if x < 1112 then
                  if x == 1110 then 15 else -1
                else
                  if x == 1112 then 12 else -1
              else
                if x < 1118 then
                  if x == 1115 then 13 else -1
                else
                  if x == 1118 then 14 else -1
            else
              if x < 1199 then
                if x < 1188 then
                  if x == 1177 then 26 else -1
                else
                  if x == 1188 then 74 else -1
              else
                if x < 1977 then
                  if x == 1199 then 42 else -1
                else
                  if x == 1977 then 16 else -1
        else
          if x < 27788 then
            if x < 11199 then
              if x < 11177 then
                if x < 1999 then
                  if x == 1988 then 64 else -1
                else
                  if x == 1999 then 32 else -1
              else
                if x < 11188 then
                  if x == 11177 then 27 else -1
                else
                  if x == 11188 then 75 else -1
            else
              if x < 17799 then
                if x < 17788 then
                  if x == 11199 then 43 else -1
                else
                  if x == 17788 then 81 else -1
              else
                if x < 19988 then
                  if x == 17799 then 49 else -1
                else
                  if x == 19988 then 97 else -1
          else
            if x < 47799 then
              if x < 29988 then
                if x < 27799 then
                  if x == 27788 then 82 else -1
                else
                  if x == 27799 then 50 else -1
              else
                if x < 47788 then
                  if x == 29988 then 98 else -1
                else
                  if x == 47788 then 83 else -1
            else
              if x < 57788 then
                if x < 49988 then
                  if x == 47799 then 51 else -1
                else
                  if x == 49988 then 99 else -1
              else
                if x < 57799 then
                  if x == 57788 then 84 else -1
                else
                  if x == 57799 then 52 else -1
    else
      if x < 197799 then
        if x < 111077 then
          if x < 87799 then
            if x < 77788 then
              if x < 67799 then
                if x < 67788 then
                  if x == 59988 then 100 else -1
                else
                  if x == 67788 then 85 else -1
              else
                if x < 69988 then
                  if x == 67799 then 53 else -1
                else
                  if x == 69988 then 101 else -1
            else
              if x < 79988 then
                if x < 77799 then
                  if x == 77788 then 86 else -1
                else
                  if x == 77799 then 54 else -1
              else
                if x < 87788 then
                  if x == 79988 then 102 else -1
                else
                  if x == 87788 then 87 else -1
          else
            if x < 99988 then
              if x < 97788 then
                if x < 89988 then
                  if x == 87799 then 55 else -1
                else
                  if x == 89988 then 103 else -1
              else
                if x < 97799 then
                  if x == 97788 then 88 else -1
                else
                  if x == 97799 then 56 else -1
            else
              if x < 107799 then
                if x < 107788 then
                  if x == 99988 then 104 else -1
                else
                  if x == 107788 then 89 else -1
              else
                if x < 109988 then
                  if x == 107799 then 57 else -1
                else
                  if x == 109988 then 105 else -1
        else
          if x < 111599 then
            if x < 111288 then
              if x < 111099 then
                if x < 111088 then
                  if x == 111077 then 31 else -1
                else
                  if x == 111088 then 79 else -1
              else
                if x < 111277 then
                  if x == 111099 then 47 else -1
                else
                  if x == 111277 then 28 else -1
            else
              if x < 111577 then
                if x < 111299 then
                  if x == 111288 then 76 else -1
                else
                  if x == 111299 then 44 else -1
              else
                if x < 111588 then
                  if x == 111577 then 29 else -1
                else
                  if x == 111588 then 77 else -1
          else
            if x < 117788 then
              if x < 111888 then
                if x < 111877 then
                  if x == 111599 then 45 else -1
                else
                  if x == 111877 then 30 else -1
              else
                if x < 111899 then
                  if x == 111888 then 78 else -1
                else
                  if x == 111899 then 46 else -1
            else
              if x < 119988 then
                if x < 117799 then
                  if x == 117788 then 90 else -1
                else
                  if x == 117799 then 58 else -1
              else
                if x < 197788 then
                  if x == 119988 then 106 else -1
                else
                  if x == 197788 then 80 else -1
      else
        if x < 11109988 then
          if x < 5779988 then
            if x < 1119988 then
              if x < 1117788 then
                if x < 199988 then
                  if x == 197799 then 48 else -1
                else
                  if x == 199988 then 96 else -1
              else
                if x < 1117799 then
                  if x == 1117788 then 91 else -1
                else
                  if x == 1117799 then 59 else -1
            else
              if x < 2779988 then
                if x < 1779988 then
                  if x == 1119988 then 107 else -1
                else
                  if x == 1779988 then 113 else -1
              else
                if x < 4779988 then
                  if x == 2779988 then 114 else -1
                else
                  if x == 4779988 then 115 else -1
          else
            if x < 9779988 then
              if x < 7779988 then
                if x < 6779988 then
                  if x == 5779988 then 116 else -1
                else
                  if x == 6779988 then 117 else -1
              else
                if x < 8779988 then
                  if x == 7779988 then 118 else -1
                else
                  if x == 8779988 then 119 else -1
            else
              if x < 11107788 then
                if x < 10779988 then
                  if x == 9779988 then 120 else -1
                else
                  if x == 10779988 then 121 else -1
              else
                if x < 11107799 then
                  if x == 11107788 then 95 else -1
                else
                  if x == 11107799 then 63 else -1
        else
          if x < 11187799 then
            if x < 11157788 then
              if x < 11127799 then
                if x < 11127788 then
                  if x == 11109988 then 111 else -1
                else
                  if x == 11127788 then 92 else -1
              else
                if x < 11129988 then
                  if x == 11127799 then 60 else -1
                else
                  if x == 11129988 then 108 else -1
            else
              if x < 11159988 then
                if x < 11157799 then
                  if x == 11157788 then 93 else -1
                else
                  if x == 11157799 then 61 else -1
              else
                if x < 11187788 then
                  if x == 11159988 then 109 else -1
                else
                  if x == 11187788 then 94 else -1
          else
            if x < 111779988 then
              if x < 11779988 then
                if x < 11189988 then
                  if x == 11187799 then 62 else -1
                else
                  if x == 11189988 then 110 else -1
              else
                if x < 19779988 then
                  if x == 11779988 then 122 else -1
                else
                  if x == 19779988 then 112 else -1
            else
              if x < 1112779988 then
                if x < 1110779988 then
                  if x == 111779988 then 123 else -1
                else
                  if x == 1110779988 then 127 else -1
              else
                if x < 1115779988 then
                  if x == 1112779988 then 124 else -1
                else
                  if x < 1118779988 then
                    if x == 1115779988 then 125 else -1
                  else
                    if x == 1118779988 then 126 else -1
  }

  /** A sequence whose every element is mapped back to its own index has no duplicates. */
  lemma DistinctByPosition(s: seq<int>, position: int -> int)
    requires forall k :: 0 <= k < |s| ==> position(s[k]) == k
    ensures Distinct(s)
  {
    forall i, j | 0 <= i < j < |s|
      ensures s[i] != s[j]
    {
      assert position(s[i]) == i && position(s[j]) == j;
    }
  }

  // TestKeyPosition maps each key of each part back to its position in INIT_SEQ.
  lemma PartPositions0()
    ensures forall i :: 0 <= i < |INIT_PART_0| ==> TestKeyPosition(INIT_PART_0[i]) == i
  {
  }

  lemma PartPositions1()
    ensures forall i :: 0 <= i < |INIT_PART_1| ==> TestKeyPosition(INIT_PART_1[i]) == i + 22
  {
  }

  lemma PartPositions2()
    ensures forall i :: 0 <= i < |INIT_PART_2| ==> TestKeyPosition(INIT_PART_2[i]) == i + 44
  {
  }

  lemma PartPositions3()
    ensures forall i :: 0 <= i < |INIT_PART_3| ==> TestKeyPosition(INIT_PART_3[i]) == i + 66
  {
  }

  lemma PartPositions4()
    ensures forall i :: 0 <= i < |INIT_PART_4| ==> TestKeyPosition(INIT_PART_4[i]) == i + 88
  {
  }

  lemma PartPositions5()
    ensures forall i :: 0 <= i < |INIT_PART_5| ==> TestKeyPosition(INIT_PART_5[i]) == i + 110
  {
  }

  /** TestKeyPosition maps each test key back to its position. */
  lemma InitPositions()
    ensures |INIT_SEQ| == 129
    ensures forall k :: 0 <= k < |INIT_SEQ| ==> TestKeyPosition(INIT_SEQ[k]) == k
  {
    PartPositions0();
    PartPositions1();
    PartPositions2();
    PartPositions3();
    PartPositions4();
    PartPositions5();
  }

  /** The 129 test keys are pairwise different. */
  lemma InitKeysDistinct()
    ensures Distinct(INIT_SEQ)
  {
    InitPositions();
    DistinctByPosition(INIT_SEQ, TestKeyPosition);
  }
}
