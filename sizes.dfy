/** Resolution selection of CameraCapture: the area comparator, the still
    picture size (the largest supported one) and the preview size
    (chooseOptimalSize). */
module Sizes {
  import opened Optional

  /** A camera resolution (android.hardware.Camera.Size): two Java ints. */
  datatype Size = Size(width: int, height: int)

  /** Area as CompareSizesByArea computes it, widened to long. The product of
      two ints always fits in a long, so an unbounded int is exact. */
  function Area(s: Size): int
  {
    s.width * s.height
  }

  /** CompareSizesByArea.compare: Long.signum of the difference of the areas. */
  function CompareByArea(lhs: Size, rhs: Size): (c: int)
    ensures -1 <= c <= 1
    ensures c < 0 <==> Area(lhs) < Area(rhs)
    ensures c == 0 <==> Area(lhs) == Area(rhs)
    ensures c > 0 <==> Area(lhs) > Area(rhs)
  {
    var d := Area(lhs) - Area(rhs);
    if d < 0 then -1 else if d == 0 then 0 else 1
  }

  /** The comparator is a total preorder: antisymmetric in sign and transitive. */
  lemma CompareByAreaIsPreorder(a: Size, b: Size, c: Size)
    ensures CompareByArea(a, b) == -CompareByArea(b, a)
    ensures CompareByArea(a, b) <= 0 && CompareByArea(b, c) <= 0 ==> CompareByArea(a, c) <= 0
    ensures CompareByArea(a, a) == 0
  {
  }

  /** Index of the element that Collections.max returns with this comparator:
      the first one of largest area (a later element replaces the candidate
      only when it compares strictly greater). */
  function MaxIndex(s: seq<Size>): (k: nat)
    requires |s| > 0
    ensures k < |s|
    ensures forall j :: 0 <= j < |s| ==> Area(s[j]) <= Area(s[k])
    ensures forall j :: 0 <= j < k ==> Area(s[j]) < Area(s[k])
  {
    if |s| == 1 then 0
    else
      var c := MaxIndex(s[..|s| - 1]);
      if CompareByArea(s[|s| - 1], s[c]) > 0 then |s| - 1 else c
  }

  /** Index of the element that Collections.min returns with this comparator:
      the first one of smallest area. */
  function MinIndex(s: seq<Size>): (k: nat)
    requires |s| > 0
    ensures k < |s|
    ensures forall j :: 0 <= j < |s| ==> Area(s[k]) <= Area(s[j])
    ensures forall j :: 0 <= j < k ==> Area(s[k]) < Area(s[j])
  {
    if |s| == 1 then 0
    else
      var c := MinIndex(s[..|s| - 1]);
      if CompareByArea(s[|s| - 1], s[c]) < 0 then |s| - 1 else c
  }

  /** The picture size chosen in open(): Collections.max over the supported
      picture sizes. An empty list makes Collections.max throw, which is None. */
  function MaxByArea(sizes: seq<Size>): (r: Option<Size>)
    ensures r.None? <==> sizes == []
    ensures r.Some? ==> r.value in sizes
    ensures r.Some? ==> forall j :: 0 <= j < |sizes| ==> Area(sizes[j]) <= Area(r.value)
    ensures r.Some? ==> forall j :: 0 <= j < |sizes| && sizes[j] != r.value ==>
                          Area(sizes[j]) < Area(r.value) || exists i :: 0 <= i < j && sizes[i] == r.value
  {
    if sizes == [] then None else Some(sizes[MaxIndex(sizes)])
  }

  /** Java int multiplication: the exact product wrapped to 32 bits. */
  function Int32(x: int): (r: int)
    ensures -0x8000_0000 <= r < 0x8000_0000
    ensures (x - r) % 0x1_0000_0000 == 0
    ensures -0x8000_0000 <= x < 0x8000_0000 ==> r == x
  {
    (x + 0x8000_0000) % 0x1_0000_0000 - 0x8000_0000
  }

  /** The filter of chooseOptimalSize: the same aspect ratio as the picture
      size by int cross-multiplication, and a height (not a width) of at least
      wantedMinWidth. */
  predicate Acceptable(choice: Size, wantedMinWidth: int, aspectRatio: Size)
  {
    Int32(choice.width * aspectRatio.height) == Int32(choice.height * aspectRatio.width)
    && choice.height >= wantedMinWidth
  }

  lemma MulAtMost(x: int, y: int, b: int)
    requires 0 <= x <= b && 0 <= y <= b
    ensures x * y <= b * b
  {
  }

  /** For sizes of at most 46340 pixels per side the int products cannot wrap,
      so the filter compares the exact aspect ratios. */
  lemma AcceptableIsExactAspect(choice: Size, wantedMinWidth: int, aspectRatio: Size)
    requires 0 < choice.width <= 46340 && 0 < choice.height <= 46340
    requires 0 < aspectRatio.width <= 46340 && 0 < aspectRatio.height <= 46340
    ensures Acceptable(choice, wantedMinWidth, aspectRatio) <==>
              choice.width * aspectRatio.height == choice.height * aspectRatio.width
              && choice.height >= wantedMinWidth
  {
    MulAtMost(choice.width, aspectRatio.height, 46340);
    MulAtMost(choice.height, aspectRatio.width, 46340);
  }

  /** Beyond that bound the int products do wrap: a square size passes the
      filter against a 2:1 picture size. */
  lemma AcceptableWrapsForHugeSizes()
    ensures Acceptable(Size(65536, 65536), 0, Size(131072, 65536))
    ensures 65536 * 65536 != 65536 * 131072
  {
  }

  /** The list `results` that chooseOptimalSize builds, in the order of choices. */
  function Suitable(choices: seq<Size>, wantedMinWidth: int, aspectRatio: Size): (r: seq<Size>)
    ensures |r| <= |choices|
  {
    if choices == [] then []
    else
      var prefix := Suitable(choices[..|choices| - 1], wantedMinWidth, aspectRatio);
      var last := choices[|choices| - 1];
      if Acceptable(last, wantedMinWidth, aspectRatio) then prefix + [last] else prefix
  }

  /** choices[k] is what Collections.min picks from the suitable choices: it is
      suitable, no suitable choice is smaller, and every suitable choice
      before it is strictly larger. */
  predicate FirstSmallestSuitable(choices: seq<Size>, k: int, wantedMinWidth: int, aspectRatio: Size)
  {
    0 <= k < |choices| && Acceptable(choices[k], wantedMinWidth, aspectRatio)
    && (forall j :: 0 <= j < |choices| && Acceptable(choices[j], wantedMinWidth, aspectRatio) ==>
          Area(choices[k]) <= Area(choices[j]))
    && (forall j :: 0 <= j < k && Acceptable(choices[j], wantedMinWidth, aspectRatio) ==>
          Area(choices[k]) < Area(choices[j]))
  }

  /** The suitable list holds exactly the suitable choices. */
  lemma {:induction false} SuitableMembers(choices: seq<Size>, wantedMinWidth: int, aspectRatio: Size)
    ensures forall x :: x in Suitable(choices, wantedMinWidth, aspectRatio) <==>
                          x in choices && Acceptable(x, wantedMinWidth, aspectRatio)
  {
    if choices != [] {
      var prefix := choices[..|choices| - 1];
      SuitableMembers(prefix, wantedMinWidth, aspectRatio);
      assert choices == prefix + [choices[|choices| - 1]];
    }
  }

  /** The suitable list is empty exactly when no choice is suitable. */
  lemma SuitableEmpty(choices: seq<Size>, wantedMinWidth: int, aspectRatio: Size)
    ensures Suitable(choices, wantedMinWidth, aspectRatio) == [] <==>
              forall j :: 0 <= j < |choices| ==> !Acceptable(choices[j], wantedMinWidth, aspectRatio)
  {
  }

  /** Appending a choice keeps the pick when that choice is not suitable or
      is not strictly smaller. */
  lemma FirstSmallestKept(prefix: seq<Size>, last: Size, k: int, wantedMinWidth: int, aspectRatio: Size)
    requires FirstSmallestSuitable(prefix, k, wantedMinWidth, aspectRatio)
    requires Acceptable(last, wantedMinWidth, aspectRatio) ==> Area(prefix[k]) <= Area(last)
    ensures FirstSmallestSuitable(prefix + [last], k, wantedMinWidth, aspectRatio)
  {
  }

  /** Appending a suitable choice strictly smaller than every suitable one
      before it makes it the pick. */
  lemma FirstSmallestIsLast(prefix: seq<Size>, last: Size, wantedMinWidth: int, aspectRatio: Size)
    requires Acceptable(last, wantedMinWidth, aspectRatio)
    requires forall j :: 0 <= j < |prefix| && Acceptable(prefix[j], wantedMinWidth, aspectRatio) ==>
               Area(last) < Area(prefix[j])
    ensures FirstSmallestSuitable(prefix + [last], |prefix|, wantedMinWidth, aspectRatio)
  {
  }

  /** The minimum of the suitable list is the first smallest suitable choice. */
  lemma {:induction false} SuitableMinimum(choices: seq<Size>, wantedMinWidth: int, aspectRatio: Size)
    requires Suitable(choices, wantedMinWidth, aspectRatio) != []
    ensures var r := Suitable(choices, wantedMinWidth, aspectRatio);
            exists k :: FirstSmallestSuitable(choices, k, wantedMinWidth, aspectRatio)
                        && choices[k] == r[MinIndex(r)]
  {
    var n := |choices|;
    var prefix := choices[..n - 1];
    var last := choices[n - 1];
    assert choices == prefix + [last];
    var f := Suitable(choices, wantedMinWidth, aspectRatio);
    var fp := Suitable(prefix, wantedMinWidth, aspectRatio);
    if !Acceptable(last, wantedMinWidth, aspectRatio) {
      assert f == fp;
      SuitableMinimum(prefix, wantedMinWidth, aspectRatio);
      var k :| FirstSmallestSuitable(prefix, k, wantedMinWidth, aspectRatio) && prefix[k] == fp[MinIndex(fp)];
      FirstSmallestKept(prefix, last, k, wantedMinWidth, aspectRatio);
      assert choices[k] == f[MinIndex(f)];
    } else if fp == [] {
      assert f == [last];
      SuitableEmpty(prefix, wantedMinWidth, aspectRatio);
      FirstSmallestIsLast(prefix, last, wantedMinWidth, aspectRatio);
      assert choices[n - 1] == f[MinIndex(f)];
    } else {
      assert f == fp + [last];
      assert f[..|f| - 1] == fp;
      SuitableMinimum(prefix, wantedMinWidth, aspectRatio);
      var k :| FirstSmallestSuitable(prefix, k, wantedMinWidth, aspectRatio) && prefix[k] == fp[MinIndex(fp)];
      var c := MinIndex(fp);
      if CompareByArea(last, fp[c]) < 0 {
        assert MinIndex(f) == |f| - 1;
        FirstSmallestIsLast(prefix, last, wantedMinWidth, aspectRatio);
        assert choices[n - 1] == f[MinIndex(f)];
      } else {
        assert MinIndex(f) == c;
        FirstSmallestKept(prefix, last, k, wantedMinWidth, aspectRatio);
        assert choices[k] == f[MinIndex(f)];
      }
    }
  }

  /** What chooseOptimalSize returns: the smallest suitable choice, else
      choices[0]; with no choices at all choices.get(0) throws, which is None. */
  function PreviewSizeFor(choices: seq<Size>, wantedMinWidth: int, aspectRatio: Size): Option<Size>
  {
    var results := Suitable(choices, wantedMinWidth, aspectRatio);
    if |results| > 0 then Some(results[MinIndex(results)])
    else if |choices| > 0 then Some(choices[0])
    else None
  }

  /** chooseOptimalSize fails only on an empty list, and otherwise returns one
      of the choices. */
  lemma PreviewSizeIsAChoice(choices: seq<Size>, wantedMinWidth: int, aspectRatio: Size)
    ensures PreviewSizeFor(choices, wantedMinWidth, aspectRatio).None? <==> choices == []
    ensures PreviewSizeFor(choices, wantedMinWidth, aspectRatio).Some? ==>
              PreviewSizeFor(choices, wantedMinWidth, aspectRatio).value in choices
  {
    var results := Suitable(choices, wantedMinWidth, aspectRatio);
    SuitableMembers(choices, wantedMinWidth, aspectRatio);
    if |results| > 0 {
      assert results[MinIndex(results)] in results;
    }
  }

  /** When some choice is suitable, chooseOptimalSize returns the first
      smallest suitable choice. */
  lemma PreviewSizeIsSmallestSuitable(choices: seq<Size>, wantedMinWidth: int, aspectRatio: Size)
    requires exists j :: 0 <= j < |choices| && Acceptable(choices[j], wantedMinWidth, aspectRatio)
    ensures exists k :: FirstSmallestSuitable(choices, k, wantedMinWidth, aspectRatio)
                        && PreviewSizeFor(choices, wantedMinWidth, aspectRatio) == Some(choices[k])
  {
    SuitableEmpty(choices, wantedMinWidth, aspectRatio);
    SuitableMinimum(choices, wantedMinWidth, aspectRatio);
  }

  /** When no choice is suitable, chooseOptimalSize falls back to choices[0]. */
  lemma PreviewSizeFallsBack(choices: seq<Size>, wantedMinWidth: int, aspectRatio: Size)
    requires |choices| > 0
    requires forall j :: 0 <= j < |choices| ==> !Acceptable(choices[j], wantedMinWidth, aspectRatio)
    ensures PreviewSizeFor(choices, wantedMinWidth, aspectRatio) == Some(choices[0])
  {
    SuitableEmpty(choices, wantedMinWidth, aspectRatio);
  }

  /** chooseOptimalSize: one pass over choices collecting the suitable ones,
      then Collections.min over them, or the first choice as a fallback. */
  method ChooseOptimalSize(choices: seq<Size>, wantedMinWidth: int, aspectRatio: Size)
    returns (r: Option<Size>)
    ensures r == PreviewSizeFor(choices, wantedMinWidth, aspectRatio)
  {
    var results: seq<Size> := [];
    var i := 0;
    while i < |choices|
      invariant 0 <= i <= |choices|
      invariant results == Suitable(choices[..i], wantedMinWidth, aspectRatio)
    {
      var choice := choices[i];
      assert choices[..i + 1][..i] == choices[..i];
      if Acceptable(choice, wantedMinWidth, aspectRatio) {
        results := results + [choice];
      }
      i := i + 1;
    }
    assert choices[..i] == choices;
    if |results| > 0 {
      r := Some(results[MinIndex(results)]);
    } else if |choices| > 0 {
      r := Some(choices[0]);
    } else {
      r := None;
    }
  }
}
