/** The stress corpus picks one entry from each pool by reading an ordinal as a number in mixed
    radix. Consecutive indices step through the ordinals, and the step is coprime to their number. */
module MixedPick {
  import opened Arithmetic
  import opened Prelude

  datatype Failure = NotCoprime | DivisionByZero

  // ---- Greatest common divisor ----

  function Gcd(a: nat, b: nat): nat
    decreases b
  {
    if b == 0 then a else Gcd(b, a % b)
  }

  function Abs(x: int): nat { if x < 0 then -x else x }

  method ComputeGcd(a: int, b: int) returns (g: nat)
    ensures g == Gcd(Abs(a), Abs(b))
  {
    var c: nat := Abs(b);
    g := Abs(a);
    while c != 0
      invariant Gcd(g, c) == Gcd(Abs(a), Abs(b))
      decreases c
    {
      g, c := c, g % c;
    }
  }

  lemma Unwind(a: int, b: int, q: int, x: int, y: int)
    ensures a * y + b * (x - q * y) == b * x + (a - b * q) * y
  {
    assert b * (x - q * y) == b * x - b * (q * y);
    assert b * (q * y) == (b * q) * y;
    Distribute(a, b * q, y);
  }

  lemma {:induction false} Bezout(a: nat, b: nat) returns (x: int, y: int)
    ensures a * x + b * y == Gcd(a, b)
    decreases b
  {
    if b == 0 {
      x, y := 1, 0;
    } else {
      var x', y' := Bezout(b, a % b);
      x, y := y', x' - (a / b) * y';
      Unwind(a, b, a / b, x', y');
    }
  }

  lemma {:induction false} GcdDivides(a: nat, b: nat)
    ensures Divides(Gcd(a, b), a) && Divides(Gcd(a, b), b)
    decreases b
  {
    if b == 0 {
      assert a == 1 * Gcd(a, b);
      assert b == 0 * Gcd(a, b);
    } else {
      GcdDivides(b, a % b);
      var g := Gcd(a, b);
      var k: int :| b == k * g;
      var m: int :| a % b == m * g;
      assert a == (k * (a / b) + m) * g by {
        assert a == b * (a / b) + a % b;
        assert (k * g) * (a / b) == (k * (a / b)) * g;
        Distribute(k * (a / b), -m, g);
      }
    }
  }

  // ---- Digits ----

  predicate Positive(sizes: seq<nat>) { forall i | 0 <= i < |sizes| :: sizes[i] > 0 }

  function Space(sizes: seq<nat>): nat {
    if sizes == [] then 1 else sizes[0] * Space(sizes[1..])
  }

  lemma {:induction false} SpacePositive(sizes: seq<nat>)
    ensures Space(sizes) > 0 <==> Positive(sizes)
  {
    if sizes != [] {
      SpacePositive(sizes[1..]);
      assert sizes == [sizes[0]] + sizes[1..];
      if sizes[0] > 0 && Space(sizes[1..]) > 0 { assert sizes[0] * Space(sizes[1..]) > 0; }
    }
  }

  function Digits(sizes: seq<nat>, ordinal: nat): (d: seq<nat>)
    requires Positive(sizes)
    ensures |d| == |sizes|
  {
    if sizes == [] then [] else [ordinal % sizes[0]] + Digits(sizes[1..], ordinal / sizes[0])
  }

  predicate IsDigits(sizes: seq<nat>, d: seq<nat>) {
    |d| == |sizes| && forall i | 0 <= i < |d| :: d[i] < sizes[i]
  }

  function Value(sizes: seq<nat>, d: seq<nat>): nat
    requires |d| == |sizes|
  {
    if sizes == [] then 0 else Value(sizes[1..], d[1..]) * sizes[0] + d[0]
  }

  /** Digits and ordinals below the product of the sizes are the same thing. */
  lemma {:induction false} ValueOfDigits(sizes: seq<nat>, ordinal: nat)
    requires Positive(sizes) && ordinal < Space(sizes)
    ensures IsDigits(sizes, Digits(sizes, ordinal)) && Value(sizes, Digits(sizes, ordinal)) == ordinal
  {
    if sizes != [] {
      var n := sizes[0];
      DivMod(ordinal, n);
      Bound(ordinal / n, ordinal % n, n, Space(sizes[1..]));
      ValueOfDigits(sizes[1..], ordinal / n);
      assert Digits(sizes, ordinal)[1..] == Digits(sizes[1..], ordinal / n);
    }
  }

  lemma {:induction false} DigitsOfValue(sizes: seq<nat>, d: seq<nat>)
    requires Positive(sizes) && IsDigits(sizes, d)
    ensures Value(sizes, d) < Space(sizes) && Digits(sizes, Value(sizes, d)) == d
  {
    if sizes != [] {
      var v := Value(sizes[1..], d[1..]);
      DigitsOfValue(sizes[1..], d[1..]);
      Bound(v, d[0], sizes[0], Space(sizes[1..]));
      Quotient(v, sizes[0], d[0]);
      assert d == [d[0]] + d[1..];
    }
  }

  // ---- Indices ----

  function Ordinal(index: int, step: int, space: nat): (o: nat)
    requires space > 0
    ensures o < space
  {
    ((index - 1) * step) % space
  }

  predicate Coprime(step: int, space: nat) { Gcd(Abs(step), space) == 1 }

  lemma Inverse(step: int, space: nat) returns (x: int, y: int)
    requires Coprime(step, space)
    ensures step * x + space * y == 1
  {
    x, y := Bezout(Abs(step), space);
    if step < 0 {
      assert Abs(step) * x == step * -x;
      x := -x;
    }
  }

  lemma Scale(d: int, step: int, x: int, space: int, y: int)
    requires step * x + space * y == 1
    ensures (d * step) * x + space * (d * y) == d
  {
    assert (d * step) * x == d * (step * x);
    assert space * (d * y) == d * (space * y);
    assert d * (step * x + space * y) == d * (step * x) + d * (space * y);
  }

  /** A divisor of a product that is coprime to one factor divides the other. */
  lemma Cancel(d: int, step: int, space: nat)
    requires Coprime(step, space)
    ensures Divides(space, d * step) <==> Divides(space, d)
  {
    if Divides(space, d * step) {
      var x, y := Inverse(step, space);
      DividesTimes(space, d * step, x);
      DividesSelf(space, d * y);
      DividesPlus(space, (d * step) * x, space * (d * y));
      Scale(d, step, x, space, y);
    }
    if Divides(space, d) { DividesTimes(space, d, step); }
  }

  /** Two indices meet exactly when they are a whole period apart. */
  lemma OrdinalsMeet(i: int, j: int, step: int, space: nat)
    requires space > 0 && Coprime(step, space)
    ensures Ordinal(i, step, space) == Ordinal(j, step, space) <==> Divides(space, i - j)
  {
    SameRemainder((i - 1) * step, (j - 1) * step, space);
    Distribute(i - 1, j - 1, step);
    Cancel(i - j, step, space);
  }

  lemma Negate(a: int, b: int, c: int)
    ensures (a - b) * -c == b * c - a * c
  {}

  /** Every ordinal is met in every block of `space` consecutive indices. */
  lemma OrdinalReached(o: nat, step: int, space: nat, start: int) returns (index: int)
    requires o < space && Coprime(step, space)
    ensures start <= index < start + space && Ordinal(index, step, space) == o
  {
    var x, y := Inverse(step, space);
    var t := o * x + 1 - start;
    DivMod(t, space);
    index := start + t % space;
    // index - 1 and o * x agree modulo space, and so do (index - 1) * step and o
    DividesTimes(space, t - t % space, -step);
    DividesSelf(space, o * y);
    var a, b := (t - t % space) * -step, space * (o * y);
    DividesPlus(space, a, b);
    assert a == (index - 1) * step - (o * x) * step by {
      assert t - t % space == o * x - (index - 1);
      Negate(o * x, index - 1, step);
    }
    Scale(o, step, x, space, y);
    Rotate(o, x, step);
    Remainder((index - 1) * step, space, o);
  }

  // ---- Picking ----

  function Sizes<T>(pools: seq<seq<T>>): (sizes: seq<nat>)
    ensures |sizes| == |pools| && forall i | 0 <= i < |pools| :: sizes[i] == |pools[i]|
  {
    seq(|pools|, i requires 0 <= i < |pools| => |pools[i]|)
  }

  /** The entries that the digits point at. */
  function Entries<T>(pools: seq<seq<T>>, d: seq<nat>): (picks: seq<T>)
    requires IsDigits(Sizes(pools), d)
    ensures |picks| == |pools|
  {
    seq(|pools|, i requires 0 <= i < |pools| => pools[i][d[i]])
  }

  predicate Distinct<T(==)>(pool: seq<T>) { forall i, j | 0 <= i < j < |pool| :: pool[i] != pool[j] }

  ghost function Picks<T>(index: int, pools: seq<seq<T>>, step: int): (picks: seq<T>)
    requires Positive(Sizes(pools))
  {
    SpacePositive(Sizes(pools));
    var o := Ordinal(index, step, Space(Sizes(pools)));
    ValueOfDigits(Sizes(pools), o);
    Entries(pools, Digits(Sizes(pools), o))
  }

  lemma SizesTail<T>(pools: seq<seq<T>>)
    requires pools != []
    ensures Sizes(pools)[1..] == Sizes(pools[1..])
  {}

  lemma Associate(a: int, b: int, c: int)
    ensures a * (b * c) == (a * b) * c
  {}

  method Product<T>(pools: seq<seq<T>>) returns (space: nat)
    ensures space == Space(Sizes(pools))
  {
    space := 1;
    var n := 0;
    assert pools[0..] == pools;
    while n < |pools|
      invariant n <= |pools| && space * Space(Sizes(pools[n..])) == Space(Sizes(pools))
    {
      SizesTail(pools[n..]);
      assert pools[n..][1..] == pools[n + 1..];
      Associate(space, |pools[n]|, Space(Sizes(pools[n + 1..])));
      space := space * |pools[n]|;
      n := n + 1;
    }
  }

  lemma NextDigit<T>(pools: seq<seq<T>>, all: seq<nat>, n: nat, ordinal: nat)
    requires Positive(Sizes(pools)) && n < |pools| == |all| && all[n..] == Digits(Sizes(pools[n..]), ordinal)
    ensures |pools[n]| > 0 && all[n] == ordinal % |pools[n]|
    ensures all[n + 1..] == Digits(Sizes(pools[n + 1..]), ordinal / |pools[n]|)
  {
    SizesTail(pools[n..]);
    assert pools[n..][1..] == pools[n + 1..];
    assert Sizes(pools)[n] > 0;
    assert all[n] == all[n..][0] && all[n + 1..] == all[n..][1..];
  }

  method PickEntries<T>(start: nat, pools: seq<seq<T>>) returns (picks: seq<T>)
    requires Positive(Sizes(pools)) && start < Space(Sizes(pools))
    ensures IsDigits(Sizes(pools), Digits(Sizes(pools), start)) && picks == Entries(pools, Digits(Sizes(pools), start))
  {
    var ordinal: nat := start;
    ghost var all := Digits(Sizes(pools), ordinal);
    ValueOfDigits(Sizes(pools), ordinal);
    picks := [];
    var n := 0;
    assert pools[0..] == pools;
    while n < |pools|
      invariant n <= |pools| && |picks| == n
      invariant all[n..] == Digits(Sizes(pools[n..]), ordinal)
      invariant forall i | 0 <= i < n :: picks[i] == pools[i][all[i]]
    {
      NextDigit(pools, all, n, ordinal);
      picks := picks + [pools[n][ordinal % |pools[n]|]];
      ordinal := ordinal / |pools[n]|;
      n := n + 1;
    }
  }

  /** Refuses a step that shares a factor with the number of combinations; with an empty pool
      that number is zero, and a step of one passes the check and divides by it. */
  method Pick<T>(index: int, pools: seq<seq<T>>, step: int) returns (r: Result<seq<T>, Failure>)
    ensures r == Err(NotCoprime) <==> !Coprime(step, Space(Sizes(pools)))
    ensures r == Err(DivisionByZero) <==> Coprime(step, Space(Sizes(pools))) && exists p | p in pools :: p == []
    ensures r.Ok? ==> Positive(Sizes(pools)) && r.value == Picks(index, pools, step)
  {
    var space := Product(pools);
    var g := ComputeGcd(step, space);
    SpacePositive(Sizes(pools));
    if g != 1 { return Err(NotCoprime); }
    if space == 0 {
      var i :| 0 <= i < |pools| && Sizes(pools)[i] == 0;
      assert pools[i] in pools && pools[i] == [];
      return Err(DivisionByZero);
    }
    assert forall i | 0 <= i < |pools| :: Sizes(pools)[i] > 0;
    var ordinal := ((index - 1) * step) % space;
    var picks := PickEntries(ordinal, pools);
    r := Ok(picks);
  }

  /** Any block of as many consecutive indices as there are combinations meets each combination of
      digits exactly once. */
  lemma Bijection(sizes: seq<nat>, step: int, start: int, d: seq<nat>) returns (index: int)
    requires Positive(sizes) && IsDigits(sizes, d) && Coprime(step, Space(sizes))
    ensures Space(sizes) > 0 && start <= index < start + Space(sizes)
        && Digits(sizes, Ordinal(index, step, Space(sizes))) == d
    ensures forall j | start <= j < start + Space(sizes) && Digits(sizes, Ordinal(j, step, Space(sizes))) == d ::
        j == index
  {
    SpacePositive(sizes);
    var space := Space(sizes);
    DigitsOfValue(sizes, d);
    index := OrdinalReached(Value(sizes, d), step, space, start);
    forall j | start <= j < start + space && Digits(sizes, Ordinal(j, step, space)) == d ensures j == index {
      ValueOfDigits(sizes, Ordinal(j, step, space));
      OrdinalsMeet(j, index, step, space);
      SmallMultiple(j - index, space);
    }
  }

  lemma Swap(m: int, k: int, g: int)
    ensures m * (k * g) == k * (m * g)
  {}

  lemma Signs(m: int, g: nat)
    ensures (m <= 0 ==> m * g <= 0) && (m >= 0 && g >= 2 ==> m * g >= 2 * m)
    ensures g == 0 ==> m * g == 0
  {
    if m <= 0 { assert (-m) * g >= 0; }
    if m >= 0 && g >= 2 { assert m * (g - 2) >= 0; }
  }

  lemma ProperFactor(space: int, m: int, g: nat)
    requires space > 0 && space == m * g && g != 1
    ensures 0 < m < space
  {
    Signs(m, g);
  }

  /** The check is exact: with any other step two indices less than a period apart meet. */
  lemma CoprimeNeeded(step: int, space: nat, index: int) returns (other: int)
    requires space > 0 && !Coprime(step, space)
    ensures index < other < index + space && Ordinal(other, step, space) == Ordinal(index, step, space)
  {
    var g := Gcd(Abs(step), space);
    GcdDivides(Abs(step), space);
    var m: int, k: int :| space == m * g && Abs(step) == k * g;
    ProperFactor(space, m, g);
    other := index + m;
    // m * step is a multiple of m * g, which is the period
    Swap(m, k, g);
    Swap(m, -k, g);
    assert m * step == (if step < 0 then -k else k) * space;
    Distribute(other - 1, index - 1, step);
    SameRemainder((other - 1) * step, (index - 1) * step, space);
  }

  /** With pools free of duplicates, indices less than a period apart get different picks. */
  lemma PicksDiffer<T>(i: int, j: int, pools: seq<seq<T>>, step: int)
    requires Positive(Sizes(pools)) && Coprime(step, Space(Sizes(pools)))
    requires forall p | p in pools :: Distinct(p)
    requires i != j && 0 - Space(Sizes(pools)) < i - j < Space(Sizes(pools))
    ensures Picks(i, pools, step) != Picks(j, pools, step)
  {
    var sizes := Sizes(pools);
    var space := Space(sizes);
    SpacePositive(sizes);
    var o, q := Ordinal(i, step, space), Ordinal(j, step, space);
    OrdinalsMeet(i, j, step, space);
    if o == q { SmallMultiple(i - j, space); }
    ValueOfDigits(sizes, o);
    ValueOfDigits(sizes, q);
    var d, e := Digits(sizes, o), Digits(sizes, q);
    assert d != e;
    var k :| 0 <= k < |d| && d[k] != e[k];
    assert pools[k] in pools;
    assert Picks(i, pools, step)[k] == pools[k][d[k]] && Picks(j, pools, step)[k] == pools[k][e[k]];
  }

  // ---- The five builders ----

  const SLACK_FACTS := ["결제 오류 2건", "랜딩 페이지 오류 3건", "소재 검수 이슈 2건", "태깅 누락 1건", "보고서 수치 불일치 2건"]
  const SLACK_CONTEXTS := ["QA", "리뷰", "운영 점검", "교차 확인"]
  const SLACK_NAMES := ["민지", "서준", "하린", "도윤", "지우", "유진"]
  const SLACK_WEEKDAYS := ["다음 주 화요일", "다음 주 수요일", "다음 주 목요일", "다음 주 금요일"]
  const SLACK_DATES := ["8월 4일", "8월 5일", "8월 6일", "8월 7일"]
  const SLACK_FOLLOWUPS := ["월요일 오전", "화요일 오후", "수요일 오전", "목요일 오후"]
  const SLACK_WORKSTREAMS :=
      ["앱 결제", "회원가입", "브랜드 캠페인", "리포트 자동화", "소재 승인", "태그 정합성", "랜딩 속도", "CRM 연동", "검색어 관리", "대시보드 수치"]
  const SLACK_RELEASES := ["1차", "2차", "파일럿", "부분", "긴급"]

  const EMAIL_SUBJECTS := ["광고 계정 구조 개편안", "소재 교체 일정", "월간 리포트 초안", "검색어 제외 키워드 정리", "브랜드 캠페인 예산안"]
  const EMAIL_ACTIONS := ["검토", "확정", "확인", "회신", "정리"]
  const EMAIL_NAMES := ["민지", "현우", "수빈", "지안", "태윤", "예린"]
  const EMAIL_WEEKDAYS := ["다음 주 화요일", "다음 주 수요일", "다음 주 목요일", "다음 주 금요일"]
  const EMAIL_DATES := ["8월 4일", "8월 5일", "8월 6일", "8월 7일"]
  const EMAIL_AUDIENCES := ["광고주", "내부 운영팀", "세일즈팀", "디자인팀", "개발팀", "대표님", "캠페인 PM", "분석 담당자"]
  const EMAIL_CONTEXTS := ["월간 정리", "수정 요청", "최종 확인", "회신 요청", "검토 공유"]

  const REPORT_REVENUES := ["1억 2,400만 원", "9,800만 원", "8,600만 원", "1억 5,200만 원", "7,400만 원"]
  const REPORT_ROAS := ["412%", "385%", "436%", "398%", "447%"]
  const REPORT_CONVERSIONS := ["318건", "274건", "356건", "291건", "402건"]
  const REPORT_CTRS := ["0.8%p", "0.5%p", "1.1%p", "0.6%p", "0.9%p"]
  const REPORT_CPAS := ["12%", "9%", "15%", "11%", "8%"]
  const REPORT_WINDOWS := ["3일치 데이터", "4일치 데이터", "5일치 데이터"]
  const REPORT_VERTICALS := ["리테일", "교육", "보험", "앱 서비스"]

  const PROPOSAL_EVIDENCE := ["파일럿 3건", "파일럿 4건", "테스트 5건", "시범 운영 3건"]
  const PROPOSAL_CPA := ["18%", "16%", "21%", "14%"]
  const PROPOSAL_WINDOWS := ["6주", "5주", "8주", "7주"]
  const PROPOSAL_REDUCTIONS := ["20%", "18%", "22%", "15%"]
  const PROPOSAL_VERTICALS := ["이커머스", "B2B SaaS", "교육", "뷰티"]

  const PRESENTATION_METRICS := ["ROAS 412%", "CPA 18% 개선", "전환수 318건", "CTR 0.8%p 상승"]
  const PRESENTATION_CONTEXTS := ["첫 달 운영 기준", "보고용 핵심 수치", "제안서 첫 장 메시지", "캠페인 진단 한 줄"]
  const PRESENTATION_AUDIENCES := ["대표 보고", "광고주 공유", "주간 스탠드업", "제안 발표", "성과 회고"]
  const PRESENTATION_FRAMINGS := ["한 줄 요약", "첫 화면 메시지", "오프닝 카피", "설명 전 헤드라인", "숫자 강조 문구"]

  datatype Builder = Slack | Email | Report | Proposal | Presentation
  {
    function Pools(): seq<seq<string>> {
      match this
      case Slack =>
        [SLACK_FACTS, SLACK_CONTEXTS, SLACK_NAMES, SLACK_WEEKDAYS, SLACK_DATES, SLACK_FOLLOWUPS,
         SLACK_WORKSTREAMS, SLACK_RELEASES]
      case Email =>
        [EMAIL_SUBJECTS, EMAIL_ACTIONS, EMAIL_NAMES, EMAIL_WEEKDAYS, EMAIL_DATES, EMAIL_AUDIENCES,
         EMAIL_CONTEXTS]
      case Report =>
        [REPORT_REVENUES, REPORT_ROAS, REPORT_CONVERSIONS, REPORT_CTRS, REPORT_CPAS, REPORT_WINDOWS,
         REPORT_VERTICALS]
      case Proposal => [PROPOSAL_EVIDENCE, PROPOSAL_CPA, PROPOSAL_WINDOWS, PROPOSAL_REDUCTIONS, PROPOSAL_VERTICALS]
      case Presentation => [PRESENTATION_METRICS, PRESENTATION_CONTEXTS, PRESENTATION_AUDIENCES, PRESENTATION_FRAMINGS]
    }

    function Step(): nat {
      match this
      case Slack => 1283
      case Email => 641
      case Report => 151
      case Proposal => 5
      case Presentation => 7
    }

    /** How many cases the corpus takes from this builder. */
    function Count(): nat {
      match this
      case Slack => 300
      case Email => 150
      case Report => 250
      case Proposal => 200
      case Presentation => 100
    }
  }

  lemma SlackDistinct()
    ensures forall p | p in Slack.Pools() :: Distinct(p)
  {}

  lemma SlackSizes()
    ensures Sizes(Slack.Pools()) == [5, 4, 6, 4, 4, 4, 10, 5]
  {}

  lemma SlackSpace()
    ensures Space([5, 4, 6, 4, 4, 4, 10, 5]) == 384000 && Coprime(1283, 384000)
  {}

  lemma EmailDistinct()
    ensures forall p | p in Email.Pools() :: Distinct(p)
  {}

  lemma EmailSizes()
    ensures Sizes(Email.Pools()) == [5, 5, 6, 4, 4, 8, 5]
  {}

  lemma EmailSpace()
    ensures Space([5, 5, 6, 4, 4, 8, 5]) == 96000 && Coprime(641, 96000)
  {}

  lemma ReportDistinct()
    ensures forall p | p in Report.Pools() :: Distinct(p)
  {}

  lemma ReportSizes()
    ensures Sizes(Report.Pools()) == [5, 5, 5, 5, 5, 3, 4]
  {}

  lemma ReportSpace()
    ensures Space([5, 5, 5, 5, 5, 3, 4]) == 37500 && Coprime(151, 37500)
  {}

  lemma ProposalDistinct()
    ensures forall p | p in Proposal.Pools() :: Distinct(p)
  {}

  lemma ProposalSizes()
    ensures Sizes(Proposal.Pools()) == [4, 4, 4, 4, 4]
  {}

  lemma ProposalSpace()
    ensures Space([4, 4, 4, 4, 4]) == 1024 && Coprime(5, 1024)
  {}

  lemma PresentationDistinct()
    ensures forall p | p in Presentation.Pools() :: Distinct(p)
  {}

  lemma PresentationSizes()
    ensures Sizes(Presentation.Pools()) == [4, 4, 5, 5]
  {}

  lemma PresentationSpace()
    ensures Space([4, 4, 5, 5]) == 400 && Coprime(7, 400)
  {}

  predicate Fits(b: Builder) {
    && Positive(Sizes(b.Pools())) && Coprime(b.Step(), Space(Sizes(b.Pools()))) && b.Count() <= Space(Sizes(b.Pools()))
    && forall p | p in b.Pools() :: Distinct(p)
  }

  lemma SlackFits()
    ensures Fits(Slack)
  {
    SlackDistinct();
    SlackSizes();
    SlackSpace();
  }

  lemma EmailFits()
    ensures Fits(Email)
  {
    EmailDistinct();
    EmailSizes();
    EmailSpace();
  }

  lemma ReportFits()
    ensures Fits(Report)
  {
    ReportDistinct();
    ReportSizes();
    ReportSpace();
  }

  lemma ProposalFits()
    ensures Fits(Proposal)
  {
    ProposalDistinct();
    ProposalSizes();
    ProposalSpace();
  }

  lemma PresentationFits()
    ensures Fits(Presentation)
  {
    PresentationDistinct();
    PresentationSizes();
    PresentationSpace();
  }

  lemma AllFit(b: Builder)
    ensures Fits(b)
  {
    if b == Slack { SlackFits(); } else if b == Email { EmailFits(); } else if b == Report { ReportFits(); }
    else if b == Proposal { ProposalFits(); } else { PresentationFits(); }
  }

  /** No two cases of one builder are made from the same picks. */
  lemma CorpusDistinct(b: Builder, i: int, j: int)
    requires 1 <= i < j <= b.Count()
    ensures Positive(Sizes(b.Pools())) && Picks(i, b.Pools(), b.Step()) != Picks(j, b.Pools(), b.Step())
  {
    AllFit(b);
    PicksDiffer(i, j, b.Pools(), b.Step());
  }
}
