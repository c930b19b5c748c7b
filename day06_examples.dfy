/** The five sample streams of the puzzle statement and their markers. */
module Day06Examples {
  import opened Wrappers
  import opened Day06

  const ExampleA := "mjqjpqmgbljsphdztnvjfqwrcgsmlb"
  const ExampleB := "bvwbjplbgvbhsrlpgdmjqwftvncz"
  const ExampleC := "nppdvjthqldpwncqszvftbrmjlhg"
  const ExampleD := "nznrnfrfntjfmvfwmzdfjlvtqnbhcprsg"
  const ExampleE := "zcfzfwzzqfrljwzlrfnpqdbhtmscgvjw"

  lemma Duplicate(cs: string, n: nat, e: nat, a: nat, b: nat)
    requires n <= e <= |cs| && e - n <= a < b < e && cs[a] == cs[b]
    ensures !Distinct(Window(cs, n, e))
  {
    assert Window(cs, n, e)[a - (e - n)] == cs[a];
    assert Window(cs, n, e)[b - (e - n)] == cs[b];
  }

  lemma DistinctWindow(cs: string, n: nat, e: nat)
    requires n <= e <= |cs|
    requires forall a, b :: e - n <= a < b < e ==> cs[a] != cs[b]
    ensures Distinct(Window(cs, n, e))
  {
    var w := Window(cs, n, e);
    assert forall k :: 0 <= k < n ==> w[k] == cs[e - n + k];
  }

  lemma ExampleAPacket()
    ensures Marker(ExampleA, 4) == Ok(7)
  {
    var cs := ExampleA;
    forall e | 4 <= e < 7
      ensures !Distinct(Window(cs, 4, e))
    {
      if e == 4 {
        Duplicate(cs, 4, e, 1, 3);
      } else if e == 5 {
        Duplicate(cs, 4, e, 1, 3);
      } else if e == 6 {
        Duplicate(cs, 4, e, 2, 5);
      }
    }
    DistinctWindow(cs, 4, 7);
    FirstMarker(cs, 4, 7);
  }

  lemma NoMessageBeforeA(cs: string)
    requires cs == ExampleA
    ensures forall e :: 14 <= e < 19 ==> !Distinct(Window(cs, 14, e))
  {
    forall e | 14 <= e < 19
      ensures !Distinct(Window(cs, 14, e))
    {
      if e == 14 {
        Duplicate(cs, 14, e, 0, 6);
      } else if e == 15 {
        Duplicate(cs, 14, e, 1, 3);
      } else if e == 16 {
        Duplicate(cs, 14, e, 2, 5);
      } else if e == 17 {
        Duplicate(cs, 14, e, 3, 10);
      } else if e == 18 {
        Duplicate(cs, 14, e, 4, 12);
      }
    }
  }

  lemma MessageA(cs: string)
    requires cs == ExampleA
    ensures Distinct(Window(cs, 14, 19))
  {
    DistinctWindow(cs, 14, 19);
  }

  lemma ExampleAMessage(cs: string)
    requires cs == ExampleA
    ensures MarkerBeforeEnd(cs, 14) == Ok(19)
  {
    NoMessageBeforeA(cs);
    MessageA(cs);
    FirstMarkerBeforeEnd(cs, 14, 19);
  }

  lemma ExampleBPacket()
    ensures Marker(ExampleB, 4) == Ok(5)
  {
    var cs := ExampleB;
    forall e | 4 <= e < 5
      ensures !Distinct(Window(cs, 4, e))
    {
      if e == 4 {
        Duplicate(cs, 4, e, 0, 3);
      }
    }
    DistinctWindow(cs, 4, 5);
    FirstMarker(cs, 4, 5);
  }

  lemma NoMessageBeforeB(cs: string)
    requires cs == ExampleB
    ensures forall e :: 14 <= e < 23 ==> !Distinct(Window(cs, 14, e))
  {
    forall e | 14 <= e < 23
      ensures !Distinct(Window(cs, 14, e))
    {
      if e == 14 {
        Duplicate(cs, 14, e, 0, 3);
      } else if e == 15 {
        Duplicate(cs, 14, e, 1, 9);
      } else if e == 16 {
        Duplicate(cs, 14, e, 3, 7);
      } else if e == 17 {
        Duplicate(cs, 14, e, 3, 7);
      } else if e == 18 {
        Duplicate(cs, 14, e, 5, 15);
      } else if e == 19 {
        Duplicate(cs, 14, e, 5, 15);
      } else if e == 20 {
        Duplicate(cs, 14, e, 6, 14);
      } else if e == 21 {
        Duplicate(cs, 14, e, 7, 10);
      } else if e == 22 {
        Duplicate(cs, 14, e, 8, 16);
      }
    }
  }

  lemma MessageB(cs: string)
    requires cs == ExampleB
    ensures Distinct(Window(cs, 14, 23))
  {
    DistinctWindow(cs, 14, 23);
  }

  lemma ExampleBMessage(cs: string)
    requires cs == ExampleB
    ensures MarkerBeforeEnd(cs, 14) == Ok(23)
  {
    NoMessageBeforeB(cs);
    MessageB(cs);
    FirstMarkerBeforeEnd(cs, 14, 23);
  }

  lemma ExampleCPacket()
    ensures Marker(ExampleC, 4) == Ok(6)
  {
    var cs := ExampleC;
    forall e | 4 <= e < 6
      ensures !Distinct(Window(cs, 4, e))
    {
      if e == 4 {
        Duplicate(cs, 4, e, 1, 2);
      } else if e == 5 {
        Duplicate(cs, 4, e, 1, 2);
      }
    }
    DistinctWindow(cs, 4, 6);
    FirstMarker(cs, 4, 6);
  }

  lemma NoMessageBeforeC(cs: string)
    requires cs == ExampleC
    ensures forall e :: 14 <= e < 23 ==> !Distinct(Window(cs, 14, e))
  {
    forall e | 14 <= e < 23
      ensures !Distinct(Window(cs, 14, e))
    {
      if e == 14 {
        Duplicate(cs, 14, e, 0, 13);
      } else if e == 15 {
        Duplicate(cs, 14, e, 1, 2);
      } else if e == 16 {
        Duplicate(cs, 14, e, 2, 11);
      } else if e == 17 {
        Duplicate(cs, 14, e, 3, 10);
      } else if e == 18 {
        Duplicate(cs, 14, e, 8, 15);
      } else if e == 19 {
        Duplicate(cs, 14, e, 8, 15);
      } else if e == 20 {
        Duplicate(cs, 14, e, 8, 15);
      } else if e == 21 {
        Duplicate(cs, 14, e, 8, 15);
      } else if e == 22 {
        Duplicate(cs, 14, e, 8, 15);
      }
    }
  }

  lemma MessageC(cs: string)
    requires cs == ExampleC
    ensures Distinct(Window(cs, 14, 23))
  {
    DistinctWindow(cs, 14, 23);
  }

  lemma ExampleCMessage(cs: string)
    requires cs == ExampleC
    ensures MarkerBeforeEnd(cs, 14) == Ok(23)
  {
    NoMessageBeforeC(cs);
    MessageC(cs);
    FirstMarkerBeforeEnd(cs, 14, 23);
  }

  lemma ExampleDPacket()
    ensures Marker(ExampleD, 4) == Ok(10)
  {
    var cs := ExampleD;
    forall e | 4 <= e < 10
      ensures !Distinct(Window(cs, 4, e))
    {
      if e == 4 {
        Duplicate(cs, 4, e, 0, 2);
      } else if e == 5 {
        Duplicate(cs, 4, e, 2, 4);
      } else if e == 6 {
        Duplicate(cs, 4, e, 2, 4);
      } else if e == 7 {
        Duplicate(cs, 4, e, 3, 6);
      } else if e == 8 {
        Duplicate(cs, 4, e, 5, 7);
      } else if e == 9 {
        Duplicate(cs, 4, e, 5, 7);
      }
    }
    DistinctWindow(cs, 4, 10);
    FirstMarker(cs, 4, 10);
  }

  lemma NoMessageBeforeD1(cs: string)
    requires cs == ExampleD
    ensures forall e :: 14 <= e < 21 ==> !Distinct(Window(cs, 14, e))
  {
    forall e | 14 <= e < 21
      ensures !Distinct(Window(cs, 14, e))
    {
      if e == 14 {
        Duplicate(cs, 14, e, 0, 2);
      } else if e == 15 {
        Duplicate(cs, 14, e, 2, 4);
      } else if e == 16 {
        Duplicate(cs, 14, e, 2, 4);
      } else if e == 17 {
        Duplicate(cs, 14, e, 3, 6);
      } else if e == 18 {
        Duplicate(cs, 14, e, 4, 8);
      } else if e == 19 {
        Duplicate(cs, 14, e, 5, 7);
      } else if e == 20 {
        Duplicate(cs, 14, e, 7, 11);
      }
    }
  }

  lemma NoMessageBeforeD2(cs: string)
    requires cs == ExampleD
    ensures forall e :: 21 <= e < 29 ==> !Distinct(Window(cs, 14, e))
  {
    forall e | 21 <= e < 29
      ensures !Distinct(Window(cs, 14, e))
    {
      if e == 21 {
        Duplicate(cs, 14, e, 7, 11);
      } else if e == 22 {
        Duplicate(cs, 14, e, 10, 20);
      } else if e == 23 {
        Duplicate(cs, 14, e, 10, 20);
      } else if e == 24 {
        Duplicate(cs, 14, e, 10, 20);
      } else if e == 25 {
        Duplicate(cs, 14, e, 11, 14);
      } else if e == 26 {
        Duplicate(cs, 14, e, 12, 16);
      } else if e == 27 {
        Duplicate(cs, 14, e, 13, 22);
      } else if e == 28 {
        Duplicate(cs, 14, e, 14, 19);
      }
    }
  }

  lemma NoMessageBeforeD(cs: string)
    requires cs == ExampleD
    ensures forall e :: 14 <= e < 29 ==> !Distinct(Window(cs, 14, e))
  {
    NoMessageBeforeD1(cs);
    NoMessageBeforeD2(cs);
  }

  lemma MessageD(cs: string)
    requires cs == ExampleD
    ensures Distinct(Window(cs, 14, 29))
  {
    DistinctWindow(cs, 14, 29);
  }

  lemma ExampleDMessage(cs: string)
    requires cs == ExampleD
    ensures MarkerBeforeEnd(cs, 14) == Ok(29)
  {
    NoMessageBeforeD(cs);
    MessageD(cs);
    FirstMarkerBeforeEnd(cs, 14, 29);
  }

  lemma ExampleEPacket()
    ensures Marker(ExampleE, 4) == Ok(11)
  {
    var cs := ExampleE;
    forall e | 4 <= e < 11
      ensures !Distinct(Window(cs, 4, e))
    {
      if e == 4 {
        Duplicate(cs, 4, e, 0, 3);
      } else if e == 5 {
        Duplicate(cs, 4, e, 2, 4);
      } else if e == 6 {
        Duplicate(cs, 4, e, 2, 4);
      } else if e == 7 {
        Duplicate(cs, 4, e, 3, 6);
      } else if e == 8 {
        Duplicate(cs, 4, e, 6, 7);
      } else if e == 9 {
        Duplicate(cs, 4, e, 6, 7);
      } else if e == 10 {
        Duplicate(cs, 4, e, 6, 7);
      }
    }
    DistinctWindow(cs, 4, 11);
    FirstMarker(cs, 4, 11);
  }

  lemma NoMessageBeforeE1(cs: string)
    requires cs == ExampleE
    ensures forall e :: 14 <= e < 20 ==> !Distinct(Window(cs, 14, e))
  {
    forall e | 14 <= e < 20
      ensures !Distinct(Window(cs, 14, e))
    {
      if e == 14 {
        Duplicate(cs, 14, e, 0, 3);
      } else if e == 15 {
        Duplicate(cs, 14, e, 2, 4);
      } else if e == 16 {
        Duplicate(cs, 14, e, 2, 4);
      } else if e == 17 {
        Duplicate(cs, 14, e, 3, 6);
      } else if e == 18 {
        Duplicate(cs, 14, e, 4, 9);
      } else if e == 19 {
        Duplicate(cs, 14, e, 5, 13);
      }
    }
  }

  lemma NoMessageBeforeE2(cs: string)
    requires cs == ExampleE
    ensures forall e :: 20 <= e < 26 ==> !Distinct(Window(cs, 14, e))
  {
    forall e | 20 <= e < 26
      ensures !Distinct(Window(cs, 14, e))
    {
      if e == 20 {
        Duplicate(cs, 14, e, 6, 7);
      } else if e == 21 {
        Duplicate(cs, 14, e, 7, 14);
      } else if e == 22 {
        Duplicate(cs, 14, e, 8, 20);
      } else if e == 23 {
        Duplicate(cs, 14, e, 9, 17);
      } else if e == 24 {
        Duplicate(cs, 14, e, 10, 16);
      } else if e == 25 {
        Duplicate(cs, 14, e, 11, 15);
      }
    }
  }

  lemma NoMessageBeforeE(cs: string)
    requires cs == ExampleE
    ensures forall e :: 14 <= e < 26 ==> !Distinct(Window(cs, 14, e))
  {
    NoMessageBeforeE1(cs);
    NoMessageBeforeE2(cs);
  }

  lemma MessageE(cs: string)
    requires cs == ExampleE
    ensures Distinct(Window(cs, 14, 26))
  {
    DistinctWindow(cs, 14, 26);
  }

  lemma ExampleEMessage(cs: string)
    requires cs == ExampleE
    ensures MarkerBeforeEnd(cs, 14) == Ok(26)
  {
    NoMessageBeforeE(cs);
    MessageE(cs);
    FirstMarkerBeforeEnd(cs, 14, 26);
  }

}
