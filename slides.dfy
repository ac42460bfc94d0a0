/** The presentation shell (App.tsx): the mockup carousel's slide index with its
    wrap-around next/previous buttons, and the screen list filtered by role. */
module Slides {
  import opened Common

  /** The carousel's titles, S000 to S009. */
  const SlideTitles: seq<string> := [
    "로그인 (S000)", "메인 대시보드 (S001)", "월별 기준정보 설정 (S002)", "프로젝트 등록/관리 (S003)",
    "비용 집행 상세 관리 (S004)", "직원 정보 관리 (S005)", "인력 배정 현황 (S006)",
    "월간 손익 리포트 (S007)", "제안 리뷰 및 피드백 (S008)", "내 정보 관리 (S009)"]

  /** `slides.length`. */
  const SlideCount: int := 10

  /** JavaScript `a % SlideCount`: the remainder takes the sign of the dividend. */
  function JsRem(a: int): (r: int)
    ensures a >= 0 ==> 0 <= r < SlideCount
    ensures a < 0 ==> -SlideCount < r <= 0
    ensures (a - r) % SlideCount == 0
  {
    if a >= 0 then a % SlideCount else -((-a) % SlideCount)
  }

  /** `nextSlide`: `(prev + 1) % slides.length`. */
  function Next(i: int): int
  {
    JsRem(i + 1)
  }

  /** `prevSlide`: `(prev - 1 + slides.length) % slides.length`. */
  function Prev(i: int): int
  {
    JsRem(i - 1 + SlideCount)
  }

  /** From a valid slide both buttons land on a valid slide, one step along the ring. */
  lemma StepsStayInRange(i: int)
    requires 0 <= i < SlideCount
    ensures 0 <= Next(i) < SlideCount && 0 <= Prev(i) < SlideCount
    ensures Next(i) == if i == SlideCount - 1 then 0 else i + 1
    ensures Prev(i) == if i == 0 then SlideCount - 1 else i - 1
  {
  }

  /** Previous undoes next and next undoes previous. */
  lemma NextPrevInverse(i: int)
    requires 0 <= i < SlideCount
    ensures Prev(Next(i)) == i
    ensures Next(Prev(i)) == i
  {
    StepsStayInRange(i);
    StepsStayInRange(Next(i));
    StepsStayInRange(Prev(i));
  }

  /** `k` presses of the next button. */
  function NextTimes(i: int, k: nat): int
  {
    if k == 0 then i else Next(NextTimes(i, k - 1))
  }

  /** `k` presses move `k` places round the ring. */
  lemma {:induction false} NextTimesMoves(i: int, k: nat)
    requires 0 <= i < SlideCount
    ensures NextTimes(i, k) == (i + k) % SlideCount
  {
    if k > 0 {
      NextTimesMoves(i, k - 1);
      NextIsMod((i + k - 1) % SlideCount);
      ModSucc(i + k - 1);
    }
  }

  /** On a valid slide the next button is plain counting modulo the slide count. */
  lemma NextIsMod(x: int)
    requires 0 <= x < SlideCount
    ensures Next(x) == (x + 1) % SlideCount
  {
  }

  /** Counting one further round the ring. */
  lemma ModSucc(x: nat)
    ensures (x % SlideCount + 1) % SlideCount == (x + 1) % SlideCount
  {
  }

  /** As many presses as there are slides bring the carousel back where it started. */
  lemma FullTourReturns(i: int, n: nat)
    requires 0 <= i < SlideCount && n == SlideCount
    ensures NextTimes(i, n) == i
  {
    NextTimesMoves(i, n);
    ModFullTurn(i);
  }

  /** A whole turn of the ring ends where it began. */
  lemma ModFullTurn(i: int)
    requires 0 <= i < SlideCount
    ensures (i + SlideCount) % SlideCount == i
  {
  }

  /** A row of the screen list. */
  datatype Screen = Screen(id: string, name: string, desc: string, features: seq<string>,
                           data: string, roleAccess: seq<string>)

  /** `filteredScreens` for the selected role. */
  function FilteredScreens(screens: seq<Screen>, role: string): seq<Screen>
  {
    if role == "ALL" then screens else Filter(screens, (s: Screen) => role in s.roleAccess)
  }

  /** "ALL" lists every screen; any other role lists exactly the screens that grant it,
      in their order. */
  lemma FilteredScreensSpec(screens: seq<Screen>, role: string)
    ensures role == "ALL" ==> FilteredScreens(screens, role) == screens
    ensures role != "ALL" ==>
              forall s :: s in FilteredScreens(screens, role) <==> s in screens && role in s.roleAccess
    ensures Subsequence(FilteredScreens(screens, role), screens)
  {
    if role == "ALL" {
      SubsequenceRefl(screens);
    } else {
      FilterMembers(screens, (s: Screen) => role in s.roleAccess);
      FilterSubsequence(screens, (s: Screen) => role in s.roleAccess);
    }
  }

  /** The carousel's state. */
  class Carousel {
    var currentSlide: int

    predicate Valid()
      reads this
    {
      0 <= currentSlide < SlideCount
    }

    constructor ()
      ensures Valid() && currentSlide == 1
    {
      currentSlide := 1;
    }

    method NextSlide()
      requires Valid()
      modifies this
      ensures Valid()
      ensures currentSlide == Next(old(currentSlide))
    {
      currentSlide := (currentSlide + 1) % |SlideTitles|;
    }

    method PrevSlide()
      requires Valid()
      modifies this
      ensures Valid()
      ensures currentSlide == Prev(old(currentSlide))
    {
      currentSlide := (currentSlide - 1 + |SlideTitles|) % |SlideTitles|;
    }

    /** The profile card in the sidebar jumps to the last slide, the profile screen. */
    method OpenProfile()
      modifies this
      ensures Valid() && currentSlide == 9 && SlideTitles[currentSlide] == "내 정보 관리 (S009)"
    {
      currentSlide := 9;
    }
  }
}
