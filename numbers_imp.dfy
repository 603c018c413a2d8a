/**
 * The board of the numbers game (flasktest/imports/numbers_imp.py and its
 * copy in flasktest/games/utils.py): 25 boxes, eight of them numbered 2 to 9
 * with their own box class, seventeen empty, in shuffled order.
 */
module NumbersImp {

  /** The first element of a box: a number, or the empty string. */
  datatype Label = NoNumber | Number(n: int)

  /** One [label, class] pair. */
  datatype Div = Div(content: Label, box: string)

  /** The classes of the numbered boxes, for the numbers 2 to 9 in order. */
  const Boxes: seq<string> := ["boxB", "boxC", "boxD", "boxE", "boxF", "boxG", "boxH", "boxI"]

  /** The board before the shuffle: box i < 8 holds the number i + 2 with
      class Boxes[i], the other seventeen are empty with class "boxEmpty". */
  function Layout(): (l: seq<Div>)
    ensures |l| == 25
  {
    seq(25, i requires 0 <= i < 25 => if i < 8 then Div(Number(i + 2), Boxes[i]) else Div(NoNumber, "boxEmpty"))
  }

  /** The board holds each number 2 .. 9 exactly once, in the box of its own
      class; it holds no other number (in particular not 1), and its other
      seventeen boxes are empty boxes. */
  lemma LayoutContents()
    ensures forall n :: 2 <= n <= 9 ==> multiset(Layout())[Div(Number(n), Boxes[n - 2])] == 1
    ensures forall i :: 0 <= i < 25 && Layout()[i].content.Number? ==>
              2 <= Layout()[i].content.n <= 9 && Layout()[i].box == Boxes[Layout()[i].content.n - 2]
    ensures multiset(Layout())[Div(NoNumber, "boxEmpty")] == 17
    ensures forall i :: 0 <= i < 25 && Layout()[i].content.NoNumber? ==> Layout()[i].box == "boxEmpty"
  {
    LayoutNumbers();
    LayoutEmpties();
  }

  /** The layout is the eight numbered boxes followed by seventeen empty ones. */
  lemma LayoutSplit()
    ensures Layout() == Numbered(Boxes, 8) + Empties(17)
    ensures multiset(Layout()) == multiset(Numbered(Boxes, 8)) + multiset(Empties(17))
  {
    assert Layout() == Numbered(Boxes, 8) + Empties(17);
  }

  lemma LayoutNumbers()
    ensures forall n :: 2 <= n <= 9 ==> multiset(Layout())[Div(Number(n), Boxes[n - 2])] == 1
  {
    LayoutSplit();
    NumberedCount(Boxes, 8);
    EmptiesCount(17);
  }

  lemma LayoutEmpties()
    ensures multiset(Layout())[Div(NoNumber, "boxEmpty")] == 17
  {
    LayoutSplit();
    NumberedCount(Boxes, 8);
    EmptiesCount(17);
  }

  /** The first k numbered boxes, box i holding the number i + 2 with class boxes[i]. */
  function Numbered(boxes: seq<string>, k: nat): (s: seq<Div>)
    requires k <= |boxes|
    ensures |s| == k && forall i :: 0 <= i < k ==> s[i] == Div(Number(i + 2), boxes[i])
  {
    if k == 0 then [] else Numbered(boxes, k - 1) + [Div(Number(k + 1), boxes[k - 1])]
  }

  function Empties(k: nat): (s: seq<Div>)
    ensures |s| == k && forall i :: 0 <= i < k ==> s[i] == Div(NoNumber, "boxEmpty")
  {
    seq(k, _ => Div(NoNumber, "boxEmpty"))
  }

  /** Each number 2 .. k + 1 occurs once among the first k numbered boxes, and no empty box does. */
  lemma {:induction false} NumberedCount(boxes: seq<string>, k: nat)
    requires k <= |boxes|
    ensures forall n :: 2 <= n < k + 2 ==> multiset(Numbered(boxes, k))[Div(Number(n), boxes[n - 2])] == 1
    ensures multiset(Numbered(boxes, k))[Div(NoNumber, "boxEmpty")] == 0
  {
    if k > 0 {
      NumberedCount(boxes, k - 1);
      var last := Div(Number(k + 1), boxes[k - 1]);
      assert Numbered(boxes, k) == Numbered(boxes, k - 1) + [last];
      assert last !in Numbered(boxes, k - 1);
    }
  }

  /** k empty boxes, and nothing else. */
  lemma {:induction false} EmptiesCount(k: nat)
    ensures multiset(Empties(k))[Div(NoNumber, "boxEmpty")] == k
    ensures forall n, b :: multiset(Empties(k))[Div(Number(n), b)] == 0
  {
    if k > 0 {
      EmptiesCount(k - 1);
      assert Empties(k) == Empties(k - 1) + [Div(NoNumber, "boxEmpty")];
    }
  }

  /** random.shuffle: for i from the last index down to 1, swap a[i] with a
      chosen a[j], j in 0..i. Which j is chosen is left open. */
  method Shuffle(a: array<Div>)
    modifies a
    ensures multiset(a[..]) == multiset(old(a[..]))
  {
    var i := a.Length - 1;
    while i > 0
      invariant -1 <= i < a.Length
      invariant multiset(a[..]) == multiset(old(a[..]))
    {
      var j :| 0 <= j <= i;
      a[i], a[j] := a[j], a[i];
      i := i - 1;
    }
  }

  /** create_numbers_divs: 25 ["", ""] boxes, the numbered ones written in by
      index, the rest given the class "boxEmpty", then shuffled in place. */
  method CreateNumbersDivs() returns (numbersDivs: array<Div>)
    ensures fresh(numbersDivs) && numbersDivs.Length == 25
    ensures multiset(numbersDivs[..]) == multiset(Layout())
  {
    numbersDivs := new Div[25](_ => Div(NoNumber, ""));
    for index := 0 to 8
      invariant forall i :: 0 <= i < index ==> numbersDivs[i] == Layout()[i]
      invariant forall i :: 8 <= i < 25 ==> numbersDivs[i] == Div(NoNumber, "")
    {
      numbersDivs[index] := Div(Number(index + 2), Boxes[index]);
    }
    for k := 8 to 25
      invariant forall i :: 0 <= i < k ==> numbersDivs[i] == Layout()[i]
      invariant forall i :: k <= i < 25 ==> numbersDivs[i] == Div(NoNumber, "")
    {
      numbersDivs[k] := numbersDivs[k].(box := "boxEmpty");
    }
    assert numbersDivs[..] == Layout();
    Shuffle(numbersDivs);
  }
}
