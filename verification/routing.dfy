/** The affordability hint: which catalogue model to use for a piece of work. */
module Routing {
  import opened Types
  import opened Unicode
  import E = Estimator

  const ROUTE_MAX_MODELS := 32

  /** The bytes of an ASCII identifier. */
  function Ascii(id: string): (r: seq<int>)
    ensures |r| == |id| && forall i :: 0 <= i < |id| ==> r[i] == id[i] as int
  {
    seq(|id|, i requires 0 <= i < |id| => id[i] as int)
  }

  predicate IdLess(a: string, b: string) {
    LexLess(Ascii(a), Ascii(b))
  }

  function WorkOn(m: E.Model, w: Work): Work { w.(modelId := m.id) }

  /** The model has an estimate for the work, and it fits what is left. */
  predicate Affordable(m: E.Model, w: Work, remaining: int) {
    E.ForModelWork(m, WorkOn(m, w)).Ok? && E.ForModelWork(m, WorkOn(m, w)).value.chargedFlops <= remaining
  }

  function Cost(m: E.Model, w: Work): int {
    match E.ForModelWork(m, WorkOn(m, w))
    case Ok(est) => est.chargedFlops
    case Err(_) => 0
  }

  /** Cheaper, or equally expensive with the smaller id. */
  predicate Better(a: E.Model, b: E.Model, w: Work) {
    Cost(a, w) < Cost(b, w) || (Cost(a, w) == Cost(b, w) && IdLess(a.id, b.id))
  }

  /** An affordable model that no affordable model is better than. */
  ghost predicate Best(models: seq<E.Model>, w: Work, remaining: int, m: E.Model) {
    && m in models && Affordable(m, w, remaining)
    && forall x :: x in models && Affordable(x, w, remaining) ==> !Better(x, m, w)
  }

  lemma BetterTransitive(a: E.Model, b: E.Model, c: E.Model, w: Work)
    ensures Better(a, b, w) && Better(b, c, w) ==> Better(a, c, w)
    ensures Better(a, b, w) && !Better(c, b, w) ==> Better(a, c, w)
    ensures !Better(a, a, w)
  {
    LexTotal(Ascii(a.id), Ascii(a.id));
    LexTotal(Ascii(b.id), Ascii(c.id));
    if IdLess(a.id, b.id) && IdLess(b.id, c.id) {
      LexTransitive(Ascii(a.id), Ascii(b.id), Ascii(c.id));
    }
  }

  /** `choose_route`: one pass that keeps the best affordable model so far. */
  method ChooseRoute(models: seq<E.Model>, w: Work, remaining: int) returns (r: Result<Option<(Id, E.Estimate)>, Code>)
    ensures |models| > ROUTE_MAX_MODELS ==> r == Err(INVALID_INPUT)
    ensures |models| <= ROUTE_MAX_MODELS ==> r.Ok?
    ensures |models| <= ROUTE_MAX_MODELS && r.value == None ==>
              forall m :: m in models ==> !Affordable(m, w, remaining)
    ensures |models| <= ROUTE_MAX_MODELS && r.value.Some? ==>
              exists m :: Best(models, w, remaining, m)
                          && r.value.value == (m.id, E.ForModelWork(m, WorkOn(m, w)).value)
  {
    if |models| > ROUTE_MAX_MODELS {
      return Err(INVALID_INPUT);
    }
    var best: Option<E.Model> := None;
    var bestEst := E.Estimate(0, 0, 0);
    for i := 0 to |models|
      invariant best == None ==> forall m :: m in models[..i] ==> !Affordable(m, w, remaining)
      invariant best.Some? ==> Best(models[..i], w, remaining, best.value)
                               && E.ForModelWork(best.value, WorkOn(best.value, w)) == Ok(bestEst)
    {
      hide E.ForModelWork, IdLess;
      var m := models[i];
      assert models[..i + 1] == models[..i] + [m];
      var est := E.ForModelWork(m, WorkOn(m, w));
      if est.Ok? && est.value.chargedFlops <= remaining {
        if best == None || est.value.chargedFlops < bestEst.chargedFlops
           || (est.value.chargedFlops == bestEst.chargedFlops && IdLess(m.id, best.value.id)) {
          if best.Some? {
            forall x | x in models[..i] && Affordable(x, w, remaining) ensures !Better(x, m, w) {
              BetterTransitive(m, best.value, x, w);
              BetterTransitive(x, m, best.value, w);
            }
          }
          BetterTransitive(m, m, m, w);
          best, bestEst := Some(m), est.value;
        }
      }
    }
    assert models[..|models|] == models;
    if best == None {
      return Ok(None);
    }
    return Ok(Some((best.value.id, bestEst)));
  }

  /** The choice does not depend on the order of the catalogue: two best models of any two lists of the same
      models have the same id and cost, and are one model when ids are unique. */
  lemma BestIsUnique(a: seq<E.Model>, b: seq<E.Model>, w: Work, remaining: int, m: E.Model, n: E.Model)
    requires forall x :: x in a <==> x in b
    requires Best(a, w, remaining, m) && Best(b, w, remaining, n)
    ensures m.id == n.id && Cost(m, w) == Cost(n, w)
    ensures (forall x, y :: x in a && y in a && x.id == y.id ==> x == y) ==> m == n
  {
    assert !Better(m, n, w) && !Better(n, m, w);
    LexTotal(Ascii(m.id), Ascii(n.id));
    assert Ascii(m.id) == Ascii(n.id);
    SameAscii(m.id, n.id);
  }

  lemma SameAscii(a: string, b: string)
    requires Ascii(a) == Ascii(b)
    ensures a == b
  {
    assert |a| == |b|;
    forall i | 0 <= i < |a| ensures a[i] == b[i] {
      assert Ascii(a)[i] == Ascii(b)[i];
    }
  }
}
