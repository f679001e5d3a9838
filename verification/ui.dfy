/** The quality-factor badge: a four-way classification of Q with the
    badge's class list, label, note title and the pros and cons the quick
    note lists. The HTML assembly around it is not modelled. */
module UI {
  import opened Numbers

  /** The four categories, from the most damped to the sharpest. */
  datatype QCategory = Overdamped | Broad | Moderate | Sharp

  /** The CSS class a category adds to the badge. */
  function ClassName(cat: QCategory): string {
    match cat
    case Overdamped => "overdamped"
    case Broad => "broad"
    case Moderate => "moderate"
    case Sharp => "sharp"
  }

  /** Position of a category on the damped-to-sharp scale. */
  function Level(cat: QCategory): nat {
    match cat
    case Overdamped => 0
    case Broad => 1
    case Moderate => 2
    case Sharp => 3
  }

  /** Everything the badge logic decides. */
  datatype QBadge = QBadge(
    category: QCategory,
    classes: string,
    text: string,
    title: string,
    pros: seq<string>,
    cons: seq<string>)

  /** The threshold chain on Q, with JavaScript's `<`: a NaN fails every
      comparison and so lands in the sharp category. */
  function Classify(q: Num): (cat: QCategory)
    ensures q.Finite? ==>
      && (cat == Overdamped <==> q.value < 0.5)
      && (cat == Broad <==> 0.5 <= q.value < 2.0)
      && (cat == Moderate <==> 2.0 <= q.value < 10.0)
      && (cat == Sharp <==> q.value >= 10.0)
    ensures q.NaN? || q.PosInf? ==> cat == Sharp
    ensures q.NegInf? ==> cat == Overdamped
  {
    if LessThan(q, 0.5) then Overdamped
    else if LessThan(q, 2.0) then Broad
    else if LessThan(q, 10.0) then Moderate
    else Sharp
  }

  /** A larger Q never lands in a more damped category. */
  lemma ClassifyMonotone(a: real, b: real)
    requires a <= b
    ensures Level(Classify(Finite(a))) <= Level(Classify(Finite(b)))
  {
  }

  /** The badge for a quality factor: the class list is "badge" followed by
      the single category's class, and the note offers two pros and two
      cons, except for the moderate category, which has one con. */
  function RenderQBadge(q: Num): (b: QBadge)
    ensures b.category == Classify(q)
    ensures b.classes == "badge " + ClassName(b.category)
    ensures |b.pros| == 2
    ensures |b.cons| == (if b.category == Moderate then 1 else 2)
  {
    var cat := Classify(q);
    var classes := "badge " + ClassName(cat);
    match cat
    case Overdamped =>
      QBadge(cat, classes, "과도 감쇠(Overdamped)", "공진이 거의 드러나지 않음",
        ["과도 응답이 빠르게 수렴", "링잉(잔진동)이 적음"],
        ["선택성이 매우 낮아 필터 성능 저하", "분해능이 낮아 피크 구분이 어려움"])
    case Broad =>
      QBadge(cat, classes, "광대역(Broad)", "공진 곡선이 완만",
        ["넓은 대역에서 비교적 일정한 응답", "설계 민감도가 낮아 안정적"],
        ["공진 피크가 약함", "분해능/선택성이 낮음"])
    case Moderate =>
      QBadge(cat, classes, "보통(Moderate)", "비교적 선명한 공진",
        ["선택성과 안정성의 균형", "다양한 일반 용도에 적합"],
        ["고분해능 필터/정밀 센싱에는 부족할 수 있음"])
    case Sharp =>
      QBadge(cat, classes, "예리함(Sharp)", "매우 날카로운 공진",
        ["매우 높은 선택성과 분해능", "정밀 측정/필터링에 유리"],
        ["링잉이 길어 과도 응답이 길어짐", "부품 공차/손실 변화에 민감"])
  }

  /** The class list names exactly one category: different categories give
      different class lists. */
  lemma BadgeClassesDistinguish(p: Num, q: Num)
    ensures RenderQBadge(p).classes == RenderQBadge(q).classes <==> Classify(p) == Classify(q)
  {
    var cp, cq := Classify(p), Classify(q);
    if cp != cq {
      assert RenderQBadge(p).classes[6] == ClassName(cp)[0];
      assert RenderQBadge(q).classes[6] == ClassName(cq)[0];
    }
  }
}
