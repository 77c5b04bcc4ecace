/** The lazy expression renderer declared in eyes.h: a current expression and a
    dirty flag. Drawing itself is abstracted to a log of the expressions drawn,
    in order. */
module Eyes {

  /** Expression_t: exactly eight facial expressions. */
  datatype Expression = Neutral | Blink | Happy | Angry | Sleepy | Sad | LookLeft | LookRight

  /** The renderer state: `draws` lists every Eyes_Draw call's expression. */
  datatype Face = Face(current: Expression, dirty: bool, draws: seq<Expression>)

  /** Static initialisation: Neutral, dirty, so that the first update draws. */
  const Boot: Face := Face(Neutral, true, [])

  /** What is on the display is the current expression whenever it is not
      marked dirty. */
  predicate Shown(f: Face) {
    !f.dirty ==> |f.draws| > 0 && f.draws[|f.draws| - 1] == f.current
  }

  /** Eyes_Draw: draws unconditionally and clears the dirty flag. */
  function Drawn(f: Face, e: Expression): (g: Face)
    ensures g.draws == f.draws + [e] && !g.dirty && g.current == f.current
  {
    f.(dirty := false, draws := f.draws + [e])
  }

  /** Eyes_SetExpression: lazy; records a different expression and marks the
      renderer dirty, and never draws. */
  function SetExpr(f: Face, e: Expression): (g: Face)
    ensures g.current == e && g.draws == f.draws
    ensures g.dirty == (f.dirty || e != f.current)
    ensures Shown(f) ==> Shown(g)
  {
    if e != f.current then f.(current := e, dirty := true) else f
  }

  /** Eyes_Update: draws the current expression only when dirty. */
  function Refreshed(f: Face): (g: Face)
    ensures !g.dirty && g.current == f.current
    ensures f.dirty || Shown(f) ==> Shown(g)
    ensures f.dirty ==> g.draws == f.draws + [f.current]
    ensures !f.dirty ==> g == f
  {
    if f.dirty then Drawn(f, f.current) else f
  }

  /** Eyes_Invalidate: forces the next update to draw. */
  function Invalidated(f: Face): (g: Face)
    ensures g.dirty && g.current == f.current && g.draws == f.draws
  {
    f.(dirty := true)
  }

  /** Eyes_GetExpression. */
  function GetExpr(f: Face): Expression {
    f.current
  }

  /** Setting the same expression twice is the same as setting it once. */
  lemma SetExprIdempotent(f: Face, e: Expression)
    ensures SetExpr(SetExpr(f, e), e) == SetExpr(f, e)
  {
  }

  /** A second update in a row draws nothing. */
  lemma RefreshedIdempotent(f: Face)
    ensures Refreshed(Refreshed(f)) == Refreshed(f)
  {
  }

  /** After an invalidation the next update draws the current expression, and
      afterwards the display shows it. */
  lemma InvalidateForcesDraw(f: Face)
    ensures Refreshed(Invalidated(f)).draws == f.draws + [f.current]
    ensures Shown(Refreshed(Invalidated(f)))
  {
  }

  /** Setting an expression and updating leaves that expression on the
      display, with at most one draw. */
  lemma SetThenUpdateShows(f: Face, e: Expression)
    requires Shown(f)
    ensures var g := Refreshed(SetExpr(f, e));
      Shown(g) && g.current == e && |f.draws| <= |g.draws| <= |f.draws| + 1
  {
  }

  /** The renderer of eyes.c as an object. */
  class Renderer {
    var current: Expression
    var dirty: bool
    var draws: seq<Expression>

    function Model(): Face
      reads this
    {
      Face(current, dirty, draws)
    }

    constructor ()
      ensures Model() == Boot
    {
      current, dirty, draws := Neutral, true, [];
    }

    /** Eyes_Draw. */
    method Draw(e: Expression)
      modifies this
      ensures Model() == Drawn(old(Model()), e)
    {
      draws := draws + [e];
      dirty := false;
    }

    /** Eyes_SetExpression. */
    method SetExpression(e: Expression)
      modifies this
      ensures Model() == SetExpr(old(Model()), e)
    {
      if e != current {
        current := e;
        dirty := true;
      }
    }

    /** Eyes_GetExpression: returns the current expression, changes nothing. */
    method GetExpression() returns (e: Expression)
      ensures e == current
    {
      e := current;
    }

    /** Eyes_Update. */
    method Update()
      modifies this
      ensures Model() == Refreshed(old(Model()))
    {
      if dirty {
        Draw(current);
      }
    }

    /** Eyes_Invalidate. */
    method Invalidate()
      modifies this
      ensures Model() == Invalidated(old(Model()))
    {
      dirty := true;
    }
  }
}
