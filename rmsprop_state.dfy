/** The per-parameter state bookkeeping of the functional RMSprop optimizer,
    stated on values: the optimizer's state dictionary is a map from parameter
    identity to a state record, and one call of `step` is a left-to-right walk
    over the (parameter, gradient) slots that updates that map and collects the
    argument lists handed to the library update routine. */
module RmspropState {

  /** A tensor, reduced to its identity. Parameters are keyed by it and
      gradients are passed around as it; the numbers it holds are not modelled. */
  datatype Tensor = Tensor(id: nat)

  /** Which of the three per-parameter buffers a buffer is. */
  datatype BufferKind = SquareAvg | MomentumBuffer | GradAvg

  /** The zero-initialised buffer of kind `kind` allocated for parameter
      `owner`. A record is created once per parameter and its buffers are
      never replaced, so owner and kind identify the allocation. */
  datatype Buffer = Buffer(owner: Tensor, kind: BufferKind)

  datatype Option<T> = None | Some(value: T)

  /** The two ways the optimizer rejects its input. */
  datatype Error =
    | EmptyParameterList
    | GradientCountMismatch(params: nat, gradients: nat)

  datatype Result<T> = Ok(value: T) | Err(error: Error)

  /** The per-parameter state record: the `step` counter, `square_avg`, and
      `momentum_buffer` / `grad_avg` when they are present in the dictionary. */
  datatype Record = Record(
    step: nat,
    squareAvg: Buffer,
    momentumBuffer: Option<Buffer>,
    gradAvg: Option<Buffer>)

  /** The hyper-parameters fixed at construction. Only `momentum > 0` affects
      the bookkeeping; the others are passed through to the update routine. */
  datatype Defaults = Defaults(lr: real, alpha: real, eps: real, weightDecay: real, momentum: real)

  /** The lists gathered during one `step`, in the order they are appended. */
  datatype Collected = Collected(
    grads: seq<Tensor>,
    squareAvgs: seq<Buffer>,
    gradAvgs: seq<Buffer>,
    momentumBufferList: seq<Buffer>)

  /** The state map and the lists collected so far, part way through a `step`. */
  datatype Progress = Progress(state: map<Tensor, Record>, lists: Collected)

  /** The arguments of one call of the library RMSprop update routine. */
  datatype RmspropCall = RmspropCall(
    params: seq<Tensor>,
    grads: seq<Tensor>,
    squareAvgs: seq<Buffer>,
    gradAvgs: seq<Buffer>,
    momentumBufferList: seq<Buffer>,
    lr: real,
    alpha: real,
    eps: real,
    weightDecay: real,
    momentum: real,
    centered: bool)

  const NoLists := Collected([], [], [], [])

  /** The record created the first time parameter `p` receives a gradient. */
  function InitRecord(p: Tensor, d: Defaults, centered: bool): Record {
    Record(
      0,
      Buffer(p, SquareAvg),
      if d.momentum > 0.0 then Some(Buffer(p, MomentumBuffer)) else None,
      if centered then Some(Buffer(p, GradAvg)) else None)
  }

  /** A freshly created record starts at step 0 and holds `p`'s own buffers:
      `square_avg` always, `momentum_buffer` exactly when momentum > 0 and
      `grad_avg` exactly when centered. */
  lemma InitRecordShape(p: Tensor, d: Defaults, centered: bool)
    ensures var r := InitRecord(p, d, centered);
            && r.step == 0
            && r.squareAvg == Buffer(p, SquareAvg)
            && (r.momentumBuffer.Some? <==> d.momentum > 0.0)
            && (r.gradAvg.Some? <==> centered)
            && (r.momentumBuffer.Some? ==> r.momentumBuffer.value == Buffer(p, MomentumBuffer))
            && (r.gradAvg.Some? ==> r.gradAvg.value == Buffer(p, GradAvg))
  {
  }

  /** Every record holds the buffers allocated for its own key: `square_avg`
      always, `momentum_buffer` exactly when momentum > 0 and `grad_avg`
      exactly when centered. Only the step counter differs between records. */
  ghost predicate WellFormed(s: map<Tensor, Record>, d: Defaults, centered: bool) {
    forall p | p in s :: s[p] == InitRecord(p, d, centered).(step := s[p].step)
  }

  /** The record parameter `p` has when its slot is reached: its existing
      record, or the one that is created on its first gradient. */
  function Base(s: map<Tensor, Record>, p: Tensor, d: Defaults, centered: bool): Record {
    if p in s then s[p] else InitRecord(p, d, centered)
  }

  /** One slot of the loop: a slot without a gradient is skipped; otherwise the
      gradient is collected, the record is created if missing, its buffers are
      collected and its step counter goes up by one. */
  function Visit(acc: Progress, p: Tensor, g: Option<Tensor>, d: Defaults, centered: bool): (r: Progress)
    requires WellFormed(acc.state, d, centered)
    ensures WellFormed(r.state, d, centered)
  {
    match g
    case None => acc
    case Some(grad) =>
      var rec := Base(acc.state, p, d, centered);
      var l := acc.lists;
      Progress(
        acc.state[p := rec.(step := rec.step + 1)],
        Collected(
          l.grads + [grad],
          l.squareAvgs + [rec.squareAvg],
          if centered then l.gradAvgs + [rec.gradAvg.value] else l.gradAvgs,
          if d.momentum > 0.0 then l.momentumBufferList + [rec.momentumBuffer.value] else l.momentumBufferList))
  }

  /** The loop of one `step` over the first `n` slots of `ps` / `gs`, from
      state `s`; the whole call is `n == |ps|`. */
  function Walk(s: map<Tensor, Record>, ps: seq<Tensor>, gs: seq<Option<Tensor>>, d: Defaults, centered: bool,
                n: nat): (r: Progress)
    requires n <= |ps| == |gs|
    requires WellFormed(s, d, centered)
    ensures WellFormed(r.state, d, centered)
  {
    if n == 0 then Progress(s, NoLists)
    else Visit(Walk(s, ps, gs, d, centered, n - 1), ps[n - 1], gs[n - 1], d, centered)
  }

  /** The arguments handed to the update routine after the walk: the full,
      unfiltered parameter list, the collected lists and the configuration. */
  function CallOf(ps: seq<Tensor>, l: Collected, d: Defaults, centered: bool): RmspropCall {
    RmspropCall(ps, l.grads, l.squareAvgs, l.gradAvgs, l.momentumBufferList,
                d.lr, d.alpha, d.eps, d.weightDecay, d.momentum, centered)
  }

  // ---------------------------------------------------------------------------
  // Reference definitions, independent of the state map

  /** The gradients of the first `n` slots that have one, in slot order. */
  function Present(gs: seq<Option<Tensor>>, n: nat): (r: seq<Tensor>)
    requires n <= |gs|
    ensures |r| <= n
  {
    if n == 0 then []
    else
      match gs[n - 1]
      case None => Present(gs, n - 1)
      case Some(g) => Present(gs, n - 1) + [g]
  }

  /** `Present` keeps every gradient of the first `n` slots and invents none. */
  lemma {:induction false} PresentContents(gs: seq<Option<Tensor>>, n: nat)
    requires n <= |gs|
    ensures forall i | 0 <= i < n && gs[i].Some? :: gs[i].value in Present(gs, n)
    ensures forall g | g in Present(gs, n) :: exists i | 0 <= i < n :: gs[i] == Some(g)
  {
    if n > 0 {
      PresentContents(gs, n - 1);
    }
  }

  /** The parameters of the first `n` slots that have a gradient, in slot
      order, one entry per such slot (a repeated parameter appears repeatedly). */
  function Owners(ps: seq<Tensor>, gs: seq<Option<Tensor>>, n: nat): (r: seq<Tensor>)
    requires n <= |ps| == |gs|
    ensures |r| == |Present(gs, n)|
  {
    if n == 0 then []
    else if gs[n - 1].None? then Owners(ps, gs, n - 1)
    else Owners(ps, gs, n - 1) + [ps[n - 1]]
  }

  /** How many of the first `n` slots gave parameter `p` a gradient. */
  function Hits(ps: seq<Tensor>, gs: seq<Option<Tensor>>, n: nat, p: Tensor): nat
    requires n <= |ps| == |gs|
  {
    if n == 0 then 0
    else Hits(ps, gs, n - 1, p) + (if gs[n - 1].Some? && ps[n - 1] == p then 1 else 0)
  }

  /** The buffers of kind `kind` of the parameters `owners`, in order. */
  function BuffersOf(owners: seq<Tensor>, kind: BufferKind): seq<Buffer> {
    seq(|owners|, k requires 0 <= k < |owners| => Buffer(owners[k], kind))
  }

  /** How many gradient slots parameter `p` received over a history of
      successful calls (gradient lists, oldest first). */
  function Received(ps: seq<Tensor>, history: seq<seq<Option<Tensor>>>, p: Tensor): nat
    requires forall h | h in history :: |h| == |ps|
  {
    if |history| == 0 then 0
    else
      var last := history[|history| - 1];
      Received(ps, history[..|history| - 1], p) + Hits(ps, last, |last|, p)
  }

  // ---------------------------------------------------------------------------
  // Properties of one call

  /** One slot changes only the record of its own parameter, and only when it
      carries a gradient. */
  lemma VisitRecord(acc: Progress, q: Tensor, g: Option<Tensor>, d: Defaults, centered: bool, p: Tensor)
    requires WellFormed(acc.state, d, centered)
    ensures var t := Visit(acc, q, g, d, centered).state;
            var b := Base(acc.state, p, d, centered);
            var hit := if g.Some? && q == p then 1 else 0;
            (p in t <==> p in acc.state || hit > 0)
            && (p in t ==> t[p] == b.(step := b.step + hit))
  {
  }

  /** After walking the first `n` slots, parameter `p` has a record exactly
      when it had one or one of those slots gave it a gradient. Its record is
      the one it started with (existing buffers kept, or freshly created with
      step 0) with the step counter advanced by the number of slots that gave
      it a gradient. A parameter with no gradient keeps its record unchanged. */
  lemma {:induction false} WalkRecord(s: map<Tensor, Record>, ps: seq<Tensor>, gs: seq<Option<Tensor>>,
                                      d: Defaults, centered: bool, n: nat, p: Tensor)
    requires n <= |ps| == |gs|
    requires WellFormed(s, d, centered)
    ensures var t := Walk(s, ps, gs, d, centered, n).state;
            var b := Base(s, p, d, centered);
            (p in t <==> p in s || Hits(ps, gs, n, p) > 0)
            && (p in t ==> t[p] == b.(step := b.step + Hits(ps, gs, n, p)))
  {
    if n > 0 {
      WalkRecord(s, ps, gs, d, centered, n - 1, p);
      VisitRecord(Walk(s, ps, gs, d, centered, n - 1), ps[n - 1], gs[n - 1], d, centered, p);
    }
  }

  /** `Hits` counts exactly the occurrences of `p` among the parameters of the
      slots that have a gradient. */
  lemma {:induction false} HitsCountsOwners(ps: seq<Tensor>, gs: seq<Option<Tensor>>, n: nat, p: Tensor)
    requires n <= |ps| == |gs|
    ensures Hits(ps, gs, n, p) == multiset(Owners(ps, gs, n))[p]
  {
    if n > 0 {
      HitsCountsOwners(ps, gs, n - 1, p);
      var o := Owners(ps, gs, n - 1);
      if gs[n - 1].Some? {
        assert Owners(ps, gs, n) == o + [ps[n - 1]];
        assert multiset(o + [ps[n - 1]]) == multiset(o) + multiset{ps[n - 1]};
      } else {
        assert Owners(ps, gs, n) == o;
      }
    }
  }

  lemma BuffersOfSnoc(owners: seq<Tensor>, q: Tensor, kind: BufferKind)
    ensures BuffersOf(owners + [q], kind) == BuffersOf(owners, kind) + [Buffer(q, kind)]
  {
  }

  /** The lists collected over the first `n` slots: `grads` is exactly the
      present gradients in slot order; `square_avgs` holds the square-average
      buffer of the parameter of each such slot; the momentum list does the
      same when momentum > 0 and is empty otherwise; the grad-average list
      does the same when centered and is empty otherwise. */
  lemma {:induction false} WalkLists(s: map<Tensor, Record>, ps: seq<Tensor>, gs: seq<Option<Tensor>>,
                                     d: Defaults, centered: bool, n: nat)
    requires n <= |ps| == |gs|
    requires WellFormed(s, d, centered)
    ensures var l := Walk(s, ps, gs, d, centered, n).lists;
            var o := Owners(ps, gs, n);
            l.grads == Present(gs, n)
            && l.squareAvgs == BuffersOf(o, SquareAvg)
            && l.momentumBufferList == (if d.momentum > 0.0 then BuffersOf(o, MomentumBuffer) else [])
            && l.gradAvgs == (if centered then BuffersOf(o, GradAvg) else [])
  {
    if n == 0 {
      assert BuffersOf([], SquareAvg) == [];
      assert BuffersOf([], MomentumBuffer) == [];
      assert BuffersOf([], GradAvg) == [];
    } else {
      var o := Owners(ps, gs, n - 1);
      WalkLists(s, ps, gs, d, centered, n - 1);
      if gs[n - 1].Some? {
        BuffersOfSnoc(o, ps[n - 1], SquareAvg);
        BuffersOfSnoc(o, ps[n - 1], MomentumBuffer);
        BuffersOfSnoc(o, ps[n - 1], GradAvg);
      }
    }
  }

  /** Lengths of the collected lists of one call: one entry per present
      gradient in `grads` and `square_avgs`; the same number in the momentum
      list when momentum > 0 (else none) and in the grad-average list when
      centered (else none). */
  lemma WalkListLengths(s: map<Tensor, Record>, ps: seq<Tensor>, gs: seq<Option<Tensor>>,
                        d: Defaults, centered: bool)
    requires |ps| == |gs|
    requires WellFormed(s, d, centered)
    ensures var l := Walk(s, ps, gs, d, centered, |ps|).lists;
            var k := |Present(gs, |gs|)|;
            |l.grads| == k && |l.squareAvgs| == k
            && |l.momentumBufferList| == (if d.momentum > 0.0 then k else 0)
            && |l.gradAvgs| == (if centered then k else 0)
  {
    WalkLists(s, ps, gs, d, centered, |ps|);
  }

  /** The call handed to the update routine after a whole `step`: the full
      parameter list, exactly the present gradients in slot order, the
      configured buffers of the parameters of those slots, and the
      configuration unchanged. */
  lemma CallArguments(s: map<Tensor, Record>, ps: seq<Tensor>, gs: seq<Option<Tensor>>,
                      d: Defaults, centered: bool)
    requires |ps| == |gs|
    requires WellFormed(s, d, centered)
    ensures var c := CallOf(ps, Walk(s, ps, gs, d, centered, |ps|).lists, d, centered);
            var o := Owners(ps, gs, |ps|);
            && c.params == ps
            && c.grads == Present(gs, |gs|)
            && c.squareAvgs == BuffersOf(o, SquareAvg)
            && c.momentumBufferList == (if d.momentum > 0.0 then BuffersOf(o, MomentumBuffer) else [])
            && c.gradAvgs == (if centered then BuffersOf(o, GradAvg) else [])
            && c.lr == d.lr && c.alpha == d.alpha && c.eps == d.eps && c.weightDecay == d.weightDecay
            && c.momentum == d.momentum && c.centered == centered
  {
    WalkLists(s, ps, gs, d, centered, |ps|);
  }

  /** Slots whose gradient is absent change no record, create none, and
      collect nothing. */
  lemma {:induction false} AbsentGradientsChangeNothing(s: map<Tensor, Record>, ps: seq<Tensor>,
                                                       gs: seq<Option<Tensor>>, d: Defaults, centered: bool, n: nat)
    requires n <= |ps| == |gs|
    requires WellFormed(s, d, centered)
    requires forall i | 0 <= i < n :: gs[i].None?
    ensures Walk(s, ps, gs, d, centered, n) == Progress(s, NoLists)
  {
    if n > 0 {
      AbsentGradientsChangeNothing(s, ps, gs, d, centered, n - 1);
    }
  }

  /** State is keyed by parameter identity: a parameter listed twice shares one
      record, whose step counter goes up once per slot with a gradient, while
      the collected lists hold one entry per slot. */
  lemma DuplicateParameterSharesRecord(d: Defaults, centered: bool)
    ensures var a := Tensor(0);
            var w := Walk(map[], [a, a], [Some(Tensor(1)), Some(Tensor(2))], d, centered, 2);
            w.state == map[a := InitRecord(a, d, centered).(step := 2)]
            && w.lists.grads == [Tensor(1), Tensor(2)]
            && w.lists.squareAvgs == [Buffer(a, SquareAvg), Buffer(a, SquareAvg)]
  {
    var a := Tensor(0);
    var ps, gs := [a, a], [Some(Tensor(1)), Some(Tensor(2))];
    var w0 := Walk(map[], ps, gs, d, centered, 0);
    assert w0 == Progress(map[], NoLists);
    var w1 := Walk(map[], ps, gs, d, centered, 1);
    VisitSome(w0, a, Some(Tensor(1)), d, centered);
    assert w1 == Visit(w0, a, Some(Tensor(1)), d, centered);
    assert w1.state == map[a := InitRecord(a, d, centered).(step := 1)];
    VisitSome(w1, a, Some(Tensor(2)), d, centered);
    assert Walk(map[], ps, gs, d, centered, 2) == Visit(w1, a, Some(Tensor(2)), d, centered);
  }

  /** The parameter list handed to the update routine is not filtered: with
      one of two slots empty it still holds both parameters, while the
      gradient list holds one. */
  lemma ParamsNotFiltered(d: Defaults, centered: bool)
    ensures var ps := [Tensor(0), Tensor(1)];
            var gs := [None, Some(Tensor(2))];
            var c := CallOf(ps, Walk(map[], ps, gs, d, centered, 2).lists, d, centered);
            c.params == ps && c.grads == [Tensor(2)] && c.squareAvgs == [Buffer(Tensor(1), SquareAvg)]
  {
    var ps: seq<Tensor>, gs: seq<Option<Tensor>> := [Tensor(0), Tensor(1)], [None, Some(Tensor(2))];
    assert Walk(map[], ps, gs, d, centered, 0) == Progress(map[], NoLists);
    var w1 := Walk(map[], ps, gs, d, centered, 1);
    assert w1 == Visit(Progress(map[], NoLists), Tensor(0), None, d, centered);
    VisitSome(w1, Tensor(1), Some(Tensor(2)), d, centered);
    assert Walk(map[], ps, gs, d, centered, 2) == Visit(w1, Tensor(1), Some(Tensor(2)), d, centered);
  }

  /** A slot with a gradient advances its parameter's starting record and
      appends the gradient and that parameter's own buffers. */
  lemma VisitSome(acc: Progress, p: Tensor, g: Option<Tensor>, d: Defaults, centered: bool)
    requires WellFormed(acc.state, d, centered)
    requires g.Some?
    ensures var b := Base(acc.state, p, d, centered);
            var l := acc.lists;
            Visit(acc, p, g, d, centered) == Progress(
              acc.state[p := b.(step := b.step + 1)],
              Collected(
                l.grads + [g.value],
                l.squareAvgs + [Buffer(p, SquareAvg)],
                if centered then l.gradAvgs + [Buffer(p, GradAvg)] else l.gradAvgs,
                if d.momentum > 0.0 then l.momentumBufferList + [Buffer(p, MomentumBuffer)] else l.momentumBufferList))
  {
  }

  /** Walking one more slot: a slot without a gradient leaves everything as
      it was; a slot with one advances its parameter's starting record and
      appends the gradient and that parameter's own buffers. */
  lemma WalkSlot(s: map<Tensor, Record>, ps: seq<Tensor>, gs: seq<Option<Tensor>>, d: Defaults, centered: bool,
                 i: nat, before: Progress, after: Progress)
    requires i < |ps| == |gs|
    requires WellFormed(s, d, centered)
    requires Walk(s, ps, gs, d, centered, i) == before
    requires gs[i].None? ==> after == before
    requires gs[i].Some? ==>
               var b := Base(before.state, ps[i], d, centered);
               var l := before.lists;
               && after.state == before.state[ps[i] := b.(step := b.step + 1)]
               && after.lists.grads == l.grads + [gs[i].value]
               && after.lists.squareAvgs == l.squareAvgs + [Buffer(ps[i], SquareAvg)]
               && after.lists.gradAvgs == (if centered then l.gradAvgs + [Buffer(ps[i], GradAvg)] else l.gradAvgs)
               && after.lists.momentumBufferList
                  == (if d.momentum > 0.0 then l.momentumBufferList + [Buffer(ps[i], MomentumBuffer)]
                      else l.momentumBufferList)
    ensures Walk(s, ps, gs, d, centered, i + 1) == after
  {
  }

  // ---------------------------------------------------------------------------
  // Properties of a sequence of calls

  /** The state dictionary after a history of successful calls (gradient
      lists, oldest first), replayed from the empty dictionary built by the
      constructor. */
  function Replay(ps: seq<Tensor>, history: seq<seq<Option<Tensor>>>, d: Defaults, centered: bool): (r: map<Tensor, Record>)
    requires forall h | h in history :: |h| == |ps|
    ensures WellFormed(r, d, centered)
  {
    if |history| == 0 then map[]
    else
      var last := history[|history| - 1];
      Walk(Replay(ps, history[..|history| - 1], d, centered), ps, last, d, centered, |last|).state
  }

  /** Step counts track the whole history: after any sequence of successful
      calls, a parameter has a record exactly when it has received at least
      one gradient, and that record is the one created for it with `step`
      equal to the number of gradient slots it received over all calls. A
      parameter listed twice is counted once per slot. */
  lemma {:induction false} ReplayCounts(ps: seq<Tensor>, history: seq<seq<Option<Tensor>>>,
                                        d: Defaults, centered: bool, p: Tensor)
    requires forall h | h in history :: |h| == |ps|
    ensures var t := Replay(ps, history, d, centered);
            (p in t <==> Received(ps, history, p) > 0)
            && (p in t ==> t[p] == InitRecord(p, d, centered).(step := Received(ps, history, p)))
            && (p in t ==> (t[p].momentumBuffer.Some? <==> d.momentum > 0.0) && (t[p].gradAvg.Some? <==> centered))
  {
    if |history| > 0 {
      var n := |history| - 1;
      var last := history[n];
      assert forall h | h in history[..n] :: |h| == |ps|;
      ReplayCounts(ps, history[..n], d, centered, p);
      WalkRecord(Replay(ps, history[..n], d, centered), ps, last, d, centered, |last|, p);
    }
  }

  /** Replaying one more call is one more walk over its slots. */
  lemma ReplaySnoc(ps: seq<Tensor>, history: seq<seq<Option<Tensor>>>, gs: seq<Option<Tensor>>,
                   d: Defaults, centered: bool)
    requires forall h | h in history :: |h| == |ps|
    requires |gs| == |ps|
    ensures forall h | h in history + [gs] :: |h| == |ps|
    ensures Replay(ps, history + [gs], d, centered)
            == Walk(Replay(ps, history, d, centered), ps, gs, d, centered, |gs|).state
  {
    assert (history + [gs])[..|history|] == history;
  }
}
