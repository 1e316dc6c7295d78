/** The dense-v1 work estimator: fixed integer arithmetic behind range checks. */
module Estimator {
  import opened Types

  const P_MAX := 10_000_000_000_000
  const L_MAX := 1000
  const H_MAX := 1_000_000
  const I_MAX := 1048576
  const O_MAX := 1048576
  const IO_MAX := 1048576
  const B_MAX := 256
  const S_MIN := 1000
  const S_MAX := 10000

  datatype Model = Model(id: Id, dense: bool, parameters: int, layers: int, hidden: int, safetyMilli: int)

  datatype Estimate = Estimate(baseFlops: nat, attentionFlops: nat, chargedFlops: nat)

  predicate ModelDims(parameters: int, layers: int, hidden: int, safetyMilli: int) {
    && 1 <= parameters <= P_MAX
    && 1 <= layers <= L_MAX
    && 1 <= hidden <= H_MAX
    && S_MIN <= safetyMilli <= S_MAX
  }

  predicate WorkDims(inputTokens: int, maxOutputTokens: int, batch: int) {
    && 1 <= inputTokens <= I_MAX
    && 0 <= maxOutputTokens <= O_MAX
    && inputTokens + maxOutputTokens <= IO_MAX
    && 1 <= batch <= B_MAX
  }

  function Base(P: int, B: int, I: int, O: int): int {
    2 * P * B * (I + O)
  }

  function Pairs(I: int, O: int): int {
    I * (I - 1) / 2 + I * O + O * (O - 1) / 2
  }

  function Attention(L: int, H: int, B: int, I: int, O: int): int {
    4 * L * H * B * Pairs(I, O)
  }

  /** `dense_v1`: the formula alone, with the range checks left to the callers. */
  function DenseV1(P: int, L: int, H: int, I: int, O: int, B: int, S: int): Result<int, Code> {
    var r := ((Base(P, B, I, O) + Attention(L, H, B, I, O)) * S + 999) / 1000;
    if r > U_MAX then Err(OVERFLOW) else Ok(r)
  }

  /** `estimate_decomposition`: range checks, then the formula with its own overflow tests. */
  function Decompose(P: int, L: int, H: int, I: int, O: int, B: int, S: int): Result<Estimate, Code> {
    if !ModelDims(P, L, H, S) || !WorkDims(I, O, B) then Err(INVALID_INPUT)
    else
      var base := Base(P, B, I, O);
      var attention := Attention(L, H, B, I, O);
      var total := (base + attention) * S;
      if total / 1000 + 1 > U_MAX then Err(OVERFLOW)
      else
        var charged := (total + 999) / 1000;
        if base > U_MAX || attention > U_MAX || charged > U_MAX || base < 0 || attention < 0 || charged < 0
        then Err(OVERFLOW)
        else Ok(Estimate(base, attention, charged))
  }

  /** `estimate_for_model_work`: the estimate for a catalogue model, or the first failing check. */
  function ForModelWork(m: Model, w: Work): Result<Estimate, Code> {
    if !m.dense || !ModelDims(m.parameters, m.layers, m.hidden, m.safetyMilli)
       || !WorkDims(w.inputTokens, w.maxOutputTokens, w.batch) || w.modelId != m.id
    then Err(INVALID_INPUT)
    else FromParts(m, w.inputTokens, w.maxOutputTokens, w.batch)
  }

  /** `estimate_from_parts`, called with the observed instead of the maximal output at completion. */
  function FromParts(m: Model, inputTokens: int, outputTokens: int, batch: int): Result<Estimate, Code> {
    if !m.dense then Err(UNSUPPORTED_MODEL)
    else Decompose(m.parameters, m.layers, m.hidden, inputTokens, outputTokens, batch, m.safetyMilli)
  }

  // ---- the number of attended pairs depends on the total length only ----

  lemma TwicePairs(I: nat, O: nat)
    ensures 2 * Pairs(I, O) == (I + O) * (I + O - 1)
  {
    EvenProduct(I);
    EvenProduct(O);
    assert (I + O) * (I + O - 1) == I * (I - 1) + 2 * (I * O) + O * (O - 1);
  }

  lemma {:induction false} EvenProduct(n: nat)
    ensures n * (n - 1) % 2 == 0
  {
    if n > 0 {
      EvenProduct(n - 1);
      assert n * (n - 1) == (n - 1) * (n - 2) + 2 * (n - 1);
    }
  }

  lemma MulMono(a: int, b: int, c: int, d: int)
    requires 0 <= a <= c && 0 <= b <= d
    ensures 0 <= a * b <= c * d
  {
    assert a * b <= c * b;
    assert c * b <= c * d;
  }

  lemma PairsMono(I: int, O: int, I': int, O': int)
    requires 1 <= I && 0 <= O && I + O <= I' + O'
    requires 0 <= I' && 0 <= O'
    ensures 0 <= Pairs(I, O) <= Pairs(I', O')
  {
    TwicePairs(I, O);
    TwicePairs(I', O');
    MulMono(I + O, I + O - 1, I' + O', I' + O' - 1);
  }

  /** Both factors of the estimate grow with every parameter. */
  lemma PartsMono(P: int, L: int, H: int, I: int, O: int, B: int, P': int, L': int, H': int, I': int, O': int, B': int)
    requires 1 <= P <= P' && 1 <= L <= L' && 1 <= H <= H' && 1 <= B <= B'
    requires 1 <= I && 0 <= O && 0 <= I' && 0 <= O' && I + O <= I' + O'
    ensures 0 <= Base(P, B, I, O) <= Base(P', B', I', O')
    ensures 0 <= Attention(L, H, B, I, O) <= Attention(L', H', B', I', O')
  {
    MulMono(2 * P, B, 2 * P', B');
    MulMono(2 * P * B, I + O, 2 * P' * B', I' + O');
    PairsMono(I, O, I', O');
    MulMono(4 * L, H, 4 * L', H');
    MulMono(4 * L * H, B, 4 * L' * H', B');
    MulMono(4 * L * H * B, Pairs(I, O), 4 * L' * H' * B', Pairs(I', O'));
  }

  /** Rounding up keeps the order, and a safety factor of at least one covers the sum. */
  lemma Covers(sum: int, S: int, sum': int, S': int)
    requires 0 <= sum <= sum' && 1000 <= S <= S'
    ensures sum <= (sum * S + 999) / 1000 <= (sum' * S' + 999) / 1000
  {
    MulMono(sum, 1000, sum, S);
    MulMono(sum, S, sum', S');
  }

  /** Inside the range checks nothing overflows, and the two formulas agree. */
  lemma NeverOverflows(P: int, L: int, H: int, I: int, O: int, B: int, S: int)
    ensures Decompose(P, L, H, I, O, B, S).Ok? <==> ModelDims(P, L, H, S) && WorkDims(I, O, B)
    ensures Decompose(P, L, H, I, O, B, S) != Err(OVERFLOW)
    ensures ModelDims(P, L, H, S) && WorkDims(I, O, B) ==>
              DenseV1(P, L, H, I, O, B, S) == Ok(Decompose(P, L, H, I, O, B, S).value.chargedFlops)
  {
    if ModelDims(P, L, H, S) && WorkDims(I, O, B) {
      PartsMono(P, L, H, I, O, B, P_MAX, L_MAX, H_MAX, IO_MAX, 0, B_MAX);
      var sum := Base(P, B, I, O) + Attention(L, H, B, I, O);
      var most := Base(P_MAX, B_MAX, IO_MAX, 0) + Attention(L_MAX, H_MAX, B_MAX, IO_MAX, 0);
      MulMono(sum, S, most, S_MAX);
    }
  }

  /** The charge sees the input and output lengths only through their sum. */
  lemma ChargeDependsOnTotal(P: int, L: int, H: int, I: int, O: int, I': int, O': int, B: int, S: int)
    requires ModelDims(P, L, H, S) && WorkDims(I, O, B) && WorkDims(I', O', B)
    requires I + O == I' + O'
    ensures Decompose(P, L, H, I, O, B, S) == Decompose(P, L, H, I', O', B, S)
  {
    TwicePairs(I, O);
    TwicePairs(I', O');
  }

  /** The charge is monotone in every parameter and covers the work it decomposes into. */
  lemma ChargeMonotone(P: int, L: int, H: int, I: int, O: int, B: int, S: int, P': int, L': int, H': int, I': int,
          O': int, B': int, S': int)
    requires ModelDims(P, L, H, S) && WorkDims(I, O, B) && ModelDims(P', L', H', S') && WorkDims(I', O', B')
    requires P <= P' && L <= L' && H <= H' && I + O <= I' + O' && B <= B' && S <= S'
    ensures Decompose(P, L, H, I, O, B, S).Ok? && Decompose(P', L', H', I', O', B', S').Ok?
    ensures var e, e' := Decompose(P, L, H, I, O, B, S).value, Decompose(P', L', H', I', O', B', S').value;
            e.baseFlops + e.attentionFlops <= e.chargedFlops <= e'.chargedFlops
  {
    NeverOverflows(P, L, H, I, O, B, S);
    NeverOverflows(P', L', H', I', O', B', S');
    PartsMono(P, L, H, I, O, B, P', L', H', I', O', B');
    var sum, sum' := Base(P, B, I, O) + Attention(L, H, B, I, O), Base(P', B', I', O') + Attention(L', H', B', I', O');
    Covers(sum, S, sum', S');
  }

  /** Finishing inside the reserved envelope always has an estimate, never above the charge. */
  lemma ObservedWithinCharge(m: Model, w: Work, observed: nat)
    requires ForModelWork(m, w).Ok? && observed <= w.maxOutputTokens
    ensures FromParts(m, w.inputTokens, observed, w.batch).Ok?
    ensures FromParts(m, w.inputTokens, observed, w.batch).value.chargedFlops <= ForModelWork(m, w).value.chargedFlops
  {
    ChargeMonotone(m.parameters, m.layers, m.hidden, w.inputTokens, observed, w.batch, m.safetyMilli,
                   m.parameters, m.layers, m.hidden, w.inputTokens, w.maxOutputTokens, w.batch, m.safetyMilli);
  }

  // ---- what an estimate is ----

  /** A model as the catalogue may hold it, within the bounds of the specification. */
  predicate Estimable(m: Model) {
    && m.dense && 1 <= m.parameters <= 10_000_000_000_000 && 1 <= m.layers <= 1000
    && 1 <= m.hidden <= 1_000_000 && 1000 <= m.safetyMilli <= 10000
  }

  /** Work within the bounds: at least one token in, none or more out, about a million in all. */
  predicate Workable(inputTokens: int, outputTokens: int, batch: int) {
    1 <= inputTokens && 0 <= outputTokens && inputTokens + outputTokens <= 1048576 && 1 <= batch <= 256
  }

  /** `n` operations are what `total` tokens in each of `batch` sequences cost: two per parameter and token, and
      four per layer, hidden unit and pair of tokens, times the safety factor, rounded up. */
  predicate CostsExactly(m: Model, total: int, batch: int, n: int) {
    var exact := (2 * m.parameters * batch * total + 2 * m.layers * m.hidden * batch * (total * (total - 1)))
                 * m.safetyMilli;
    1000 * (n - 1) < exact <= 1000 * n
  }

  lemma CostIsUnique(m: Model, total: int, batch: int, n: int, n': int)
    requires CostsExactly(m, total, batch, n) && CostsExactly(m, total, batch, n')
    ensures n == n'
  {
  }

  /** An estimate exists exactly for a workable piece of work on an estimable model, and is its exact cost. */
  lemma EstimateIsExact(m: Model, inputTokens: int, outputTokens: int, batch: int)
    ensures var r := FromParts(m, inputTokens, outputTokens, batch);
            && (r.Ok? <==> Estimable(m) && Workable(inputTokens, outputTokens, batch))
            && (r.Ok? ==>
                  var total := inputTokens + outputTokens;
                  && r.value.baseFlops == 2 * m.parameters * batch * total
                  && r.value.attentionFlops == 2 * m.layers * m.hidden * batch * (total * (total - 1))
                  && CostsExactly(m, total, batch, r.value.chargedFlops))
            && (r == Err(UNSUPPORTED_MODEL) <==> !m.dense)
            && (r == Err(INVALID_INPUT) <==>
                  m.dense && !(Estimable(m) && Workable(inputTokens, outputTokens, batch)))
  {
    var I, O := inputTokens, outputTokens;
    NeverOverflows(m.parameters, m.layers, m.hidden, I, O, batch, m.safetyMilli);
    if Estimable(m) && Workable(I, O, batch) {
      TwicePairs(I, O);
      AttentionIs(m.layers, m.hidden, batch, I, O);
      assert Base(m.parameters, batch, I, O) == 2 * m.parameters * batch * (I + O);
      RoundsUp((Base(m.parameters, batch, I, O) + Attention(m.layers, m.hidden, batch, I, O)) * m.safetyMilli);
    }
    hide Base, Attention, Pairs;
  }

  lemma AttentionIs(L: int, H: int, B: int, I: nat, O: nat)
    ensures Attention(L, H, B, I, O) == 2 * L * H * B * ((I + O) * (I + O - 1))
  {
    TwicePairs(I, O);
    assert 4 * L * H * B * Pairs(I, O) == 2 * L * H * B * (2 * Pairs(I, O));
  }

  lemma RoundsUp(total: int)
    ensures var n := (total + 999) / 1000; 1000 * (n - 1) < total <= 1000 * n
  {
  }
}
