/** The worked example of the puzzle statement: a 5 by 5 grid with 21 visible trees. */
module Day08Examples {
  import opened Day08

  const Example: Grid := [[3, 0, 3, 7, 3], [2, 5, 5, 1, 2], [6, 5, 3, 3, 2], [3, 3, 5, 4, 9], [3, 5, 3, 9, 0]]

  lemma ExampleShape()
    ensures Rectangular(Example) && |Example| == 5 && Cols(Example) == 5
  {
  }

  lemma ExampleTree11()
    ensures Mark(Example, 1, 1) == 1
  {
    ExampleShape();
    assert ClearNorth(Example, 1, 1);
  }

  lemma ExampleTree12()
    ensures Mark(Example, 1, 2) == 1
  {
    ExampleShape();
    assert ClearNorth(Example, 1, 2);
  }

  lemma ExampleTree13()
    ensures Mark(Example, 1, 3) == 0
  {
    ExampleShape();
    assert Example[0][3] >= Example[1][3];
    assert Example[2][3] >= Example[1][3];
    assert Example[1][0] >= Example[1][3];
    assert Example[1][4] >= Example[1][3];
  }

  lemma ExampleTree21()
    ensures Mark(Example, 2, 1) == 1
  {
    ExampleShape();
    assert ClearEast(Example, 2, 1);
  }

  lemma ExampleTree22()
    ensures Mark(Example, 2, 2) == 0
  {
    ExampleShape();
    assert Example[0][2] >= Example[2][2];
    assert Example[3][2] >= Example[2][2];
    assert Example[2][0] >= Example[2][2];
    assert Example[2][3] >= Example[2][2];
  }

  lemma ExampleTree23()
    ensures Mark(Example, 2, 3) == 1
  {
    ExampleShape();
    assert ClearEast(Example, 2, 3);
  }

  lemma ExampleTree31()
    ensures Mark(Example, 3, 1) == 0
  {
    ExampleShape();
    assert Example[1][1] >= Example[3][1];
    assert Example[4][1] >= Example[3][1];
    assert Example[3][0] >= Example[3][1];
    assert Example[3][2] >= Example[3][1];
  }

  lemma ExampleTree32()
    ensures Mark(Example, 3, 2) == 1
  {
    ExampleShape();
    assert ClearSouth(Example, 3, 2);
  }

  lemma ExampleTree33()
    ensures Mark(Example, 3, 3) == 0
  {
    ExampleShape();
    assert Example[0][3] >= Example[3][3];
    assert Example[4][3] >= Example[3][3];
    assert Example[3][2] >= Example[3][3];
    assert Example[3][4] >= Example[3][3];
  }

  lemma ExampleRow0()
    ensures RowCount(Example, 0, 5) == 5
  {
    ExampleShape();
    EdgeRowCount(Example, 0, 5);
  }

  lemma ExampleRow1()
    ensures RowCount(Example, 1, 5) == 4
  {
    ExampleShape();
    ExampleTree11();
    ExampleTree12();
    ExampleTree13();
    PerimeterVisible(Example, 1, 0);
    PerimeterVisible(Example, 1, 4);
  }

  lemma ExampleRow2()
    ensures RowCount(Example, 2, 5) == 4
  {
    ExampleShape();
    ExampleTree21();
    ExampleTree22();
    ExampleTree23();
    PerimeterVisible(Example, 2, 0);
    PerimeterVisible(Example, 2, 4);
  }

  lemma ExampleRow3()
    ensures RowCount(Example, 3, 5) == 3
  {
    ExampleShape();
    ExampleTree31();
    ExampleTree32();
    ExampleTree33();
    PerimeterVisible(Example, 3, 0);
    PerimeterVisible(Example, 3, 4);
  }

  lemma ExampleRow4()
    ensures RowCount(Example, 4, 5) == 5
  {
    ExampleShape();
    EdgeRowCount(Example, 4, 5);
  }

  /** The example answer is 21. */
  lemma ExampleCount()
    ensures VisibleCount(Example) == 21
  {
    ExampleShape();
    ExampleRow0();
    ExampleRow1();
    ExampleRow2();
    ExampleRow3();
    ExampleRow4();
  }
}
