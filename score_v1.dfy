/** The first scorer, `score_link_elements` (score.py:26-86): all links form one container whose
    orientation is read from the first two links, there is no ordinal cue, and the order term is
    read from the viewport: `max(0, 1 - y/height)` when vertical, `x/width` when horizontal. A zero
    viewport dimension makes that division raise, which ends the whole call. */
module ScoreV1 {
  import opened Signals
  import opened Score

  /** The outcome of the call: the pairs, or the `ZeroDivisionError` that aborts it. */
  datatype V1Result = Scored(pairs: seq<ScoredLink>) | DivisionByZero

  /** The order term divides by the viewport dimension of the orientation, which must be nonzero. */
  predicate Divides(vertical: bool, height: int, width: int)
  {
    if vertical then height != 0 else width != 0
  }

  /** Python's `max(0, v)`. */
  function AtLeastZero(v: real): (r: real)
    ensures r >= 0.0 && r >= v
    ensures r == 0.0 || r == v
  {
    if v > 0.0 then v else 0.0
  }

  /** The order term of score.py:69-75. */
  function V1OrderTerm(link: Link, vertical: bool, height: int, width: int): real
    requires Divides(vertical, height, width)
  {
    if vertical then AtLeastZero(1.0 - link.y as real / height as real)
    else link.x as real / width as real
  }

  /** The score of one link: five 0/1 cues and the order term (score.py:57-83). */
  function V1Score(link: Link, vertical: bool, height: int, width: int): real
    requires Divides(vertical, height, width)
  {
    Point(TextCue(link.text))
    + Point(LowInViewport(link.y, height))
    + Point(ClassIdCue(link.classes, link.ids))
    + V1OrderTerm(link, vertical, height, width)
    + Point(PathDigitCue(link.path))
    + Point(SurroundingCue(link.surrounding))
  }

  /** The result of `score_link_elements`: one pair per link in input order, unless a link's
      order term divides by zero. */
  function ScoreLinksV1(links: seq<Link>, height: int, width: int): V1Result
  {
    var vertical := !IsHorizontal(links);
    if links != [] && !Divides(vertical, height, width) then DivisionByZero
    else Scored(seq(|links|, i requires 0 <= i < |links| =>
      ScoredLink(links[i].href, V1Score(links[i], vertical, height, width))))
  }

  /** With a positive viewport and a link inside it, the vertical order term lies in `[0, 1]`. */
  lemma VerticalTermBounds(link: Link, height: int, width: int)
    requires height > 0 && link.y >= 0
    ensures 0.0 <= V1OrderTerm(link, true, height, width) <= 1.0
  {
    assert link.y as real / height as real >= 0.0;
  }

  /** With a positive width and `0 <= x <= width`, the horizontal order term lies in `[0, 1]`. */
  lemma HorizontalTermBounds(link: Link, height: int, width: int)
    requires width > 0 && 0 <= link.x <= width
    ensures 0.0 <= V1OrderTerm(link, false, height, width) <= 1.0
  {
    DivMonotone(0.0, link.x as real, width as real);
    DivMonotone(link.x as real, width as real, width as real);
  }

  /** For a link inside a viewport of positive size, the score lies in `[0, 6]`. */
  lemma V1ScoreBounds(link: Link, vertical: bool, height: int, width: int)
    requires height > 0 && width > 0 && link.y >= 0 && 0 <= link.x <= width
    ensures 0.0 <= V1Score(link, vertical, height, width) <= 6.0
  {
    if vertical {
      VerticalTermBounds(link, height, width);
    } else {
      HorizontalTermBounds(link, height, width);
    }
    var text, low := Point(TextCue(link.text)), Point(LowInViewport(link.y, height));
    var token, digit := Point(ClassIdCue(link.classes, link.ids)), Point(PathDigitCue(link.path));
    var around := Point(SurroundingCue(link.surrounding));
    var order := V1OrderTerm(link, vertical, height, width);
    assert V1Score(link, vertical, height, width) == text + low + token + order + digit + around;
  }

  /** In a vertical container a link higher on the page never has a smaller order term; in a
      horizontal one a link further right never has a smaller order term. */
  lemma V1OrderDirection(a: Link, b: Link, height: int, width: int)
    requires height > 0 && width > 0
    ensures a.y <= b.y ==> V1OrderTerm(a, true, height, width) >= V1OrderTerm(b, true, height, width)
    ensures a.x <= b.x ==> V1OrderTerm(a, false, height, width) <= V1OrderTerm(b, false, height, width)
  {
    if a.y <= b.y {
      DivMonotone(a.y as real, b.y as real, height as real);
    }
    if a.x <= b.x {
      DivMonotone(a.x as real, b.x as real, width as real);
    }
  }

  /** The body of the v1 scoring loop for one link whose order term is defined (score.py:57-83). */
  method V1ScoreLink(link: Link, vertical: bool, height: int, width: int) returns (score: real)
    requires Divides(vertical, height, width)
    ensures score == V1Score(link, vertical, height, width)
  {
    score := 0.0;
    if TextCue(link.text) {
      score := score + 1.0;
    }
    if LowInViewport(link.y, height) {
      score := score + 1.0;
    }
    if ClassIdCue(link.classes, link.ids) {
      score := score + 1.0;
    }
    if vertical {
      score := score + AtLeastZero(1.0 - link.y as real / height as real);
    } else {
      score := score + link.x as real / width as real;
    }
    if PathDigitCue(link.path) {
      score := score + 1.0;
    }
    if SurroundingCue(link.surrounding) {
      score := score + 1.0;
    }
  }

  /** `score_link_elements`: reads the orientation, then scores each link in input order; the
      first order term that divides by zero aborts the call. */
  method ScoreLinkElementsV1(links: seq<Link>, height: int, width: int) returns (r: V1Result)
    ensures r == ScoreLinksV1(links, height, width)
    ensures r.DivisionByZero? <==> links != [] && (if IsHorizontal(links) then width == 0 else height == 0)
    ensures r.Scored? ==> |r.pairs| == |links| && forall i :: 0 <= i < |links| ==> r.pairs[i].href == links[i].href
  {
    var vertical := true;
    if links != [] {
      if |links| > 1 && links[0].x != links[1].x {
        vertical := false;
      }
    }
    var pairs: seq<ScoredLink> := [];
    for i := 0 to |links|
      invariant i > 0 ==> Divides(vertical, height, width)
      invariant |pairs| == i
      invariant forall k :: 0 <= k < i ==> pairs[k] == ScoredLink(links[k].href, V1Score(links[k], vertical, height, width))
    {
      var link := links[i];
      if vertical && height == 0 {
        return DivisionByZero;
      } else if !vertical && width == 0 {
        return DivisionByZero;
      }
      var score := V1ScoreLink(link, vertical, height, width);
      pairs := pairs + [ScoredLink(link.href, score)];
    }
    r := Scored(pairs);
  }
}
