/** The functional RMSprop optimizer used by the distributed optimizer: it
    takes its gradients as an explicit argument of `Step` instead of reading
    them from the parameters, keeps one state record per parameter, and hands
    the collected argument lists to the library update routine, whose
    arithmetic is not modelled. */
module DistributedOptim {
  import opened RmspropState

  class FunctionalRMSprop {
    /** `lr`, `alpha`, `eps`, `weight_decay` and `momentum`. */
    const defaults: Defaults
    const centered: bool
    /** The single parameter group's parameter list. */
    const paramGroup: seq<Tensor>
    /** The state dictionary, keyed by parameter identity. */
    var state: map<Tensor, Record>
    /** The gradient lists of every successful `Step`, oldest first. */
    ghost var history: seq<seq<Option<Tensor>>>
    /** The calls made to the update routine, oldest first. */
    ghost var calls: seq<RmspropCall>

    /** The parameter list is not empty, and the state dictionary is the one
        obtained by replaying every successful call from the empty dictionary
        (so each record has the shape fixed by the configuration and counts
        the gradients its parameter received). */
    ghost predicate Valid()
      reads this
    {
      && |paramGroup| > 0
      && (forall h | h in history :: |h| == |paramGroup|)
      && state == Replay(paramGroup, history, defaults, centered)
    }

    constructor (params: seq<Tensor>, d: Defaults, centered: bool)
      requires |params| > 0
      ensures Valid()
      ensures defaults == d && this.centered == centered && paramGroup == params
      ensures state == map[] && history == [] && calls == []
    {
      defaults := d;
      this.centered := centered;
      paramGroup := params;
      state := map[];
      history := [];
      calls := [];
    }

    /** Construction: an empty parameter list is rejected; otherwise the
        optimizer starts with an empty state dictionary. */
    static method Create(params: seq<Tensor>, lr: real := 0.01, alpha: real := 0.99, eps: real := 0.00000001,
                         weightDecay: real := 0.0, momentum: real := 0.0, centered: bool := false)
      returns (r: Result<FunctionalRMSprop>)
      ensures r.Err? <==> |params| == 0
      ensures r.Err? ==> r.error == EmptyParameterList
      ensures r.Ok? ==> var o := r.value;
                        fresh(o) && o.Valid()
                        && o.defaults == Defaults(lr, alpha, eps, weightDecay, momentum)
                        && o.centered == centered && o.paramGroup == params
                        && o.state == map[] && o.history == [] && o.calls == []
    {
      if |params| == 0 {
        return Err(EmptyParameterList);
      }
      var o := new FunctionalRMSprop(params, Defaults(lr, alpha, eps, weightDecay, momentum), centered);
      return Ok(o);
    }

    /** One optimizer step. A gradient list of the wrong length is rejected
        before anything changes. Otherwise the slots are walked in order (see
        `CollectSlots`), and the call made to the update routine with the full
        parameter list, the collected lists and the configuration is returned
        and logged. */
    method Step(gradients: seq<Option<Tensor>>) returns (r: Result<RmspropCall>)
      requires Valid()
      modifies this
      ensures Valid()
      ensures r.Err? <==> |gradients| != |paramGroup|
      ensures r.Err? ==> r.error == GradientCountMismatch(|paramGroup|, |gradients|)
      ensures r.Err? ==> state == old(state) && history == old(history) && calls == old(calls)
      ensures r.Ok? ==>
                var w := Walk(old(state), paramGroup, gradients, defaults, centered, |gradients|);
                && state == w.state
                && r.value == CallOf(paramGroup, w.lists, defaults, centered)
                && history == old(history) + [gradients]
                && calls == old(calls) + [r.value]
    {
      var params := paramGroup;
      if |params| != |gradients| {
        return Err(GradientCountMismatch(|params|, |gradients|));
      }
      var grads, squareAvgs, gradAvgs, momentumBufferList := CollectSlots(gradients);
      var call := RmspropCall(params, grads, squareAvgs, gradAvgs, momentumBufferList,
                              defaults.lr, defaults.alpha, defaults.eps, defaults.weightDecay,
                              defaults.momentum, centered);
      ReplaySnoc(paramGroup, history, gradients, defaults, centered);
      history := history + [gradients];
      calls := calls + [call];
      return Ok(call);
    }

    /** The loop of `step` over the (parameter, gradient) slots: a slot
        without a gradient is skipped; otherwise the gradient is collected,
        the parameter's record is created on its first gradient (step 0,
        `square_avg`, `momentum_buffer` when momentum > 0, `grad_avg` when
        centered), its buffers are collected and its step counter is
        incremented in place. The new state and the lists are those of
        `Walk` over all the slots. */
    method CollectSlots(gradients: seq<Option<Tensor>>)
      returns (grads: seq<Tensor>, squareAvgs: seq<Buffer>, gradAvgs: seq<Buffer>, momentumBufferList: seq<Buffer>)
      requires |gradients| == |paramGroup|
      requires WellFormed(state, defaults, centered)
      modifies this`state
      ensures Walk(old(state), paramGroup, gradients, defaults, centered, |gradients|)
              == Progress(state, Collected(grads, squareAvgs, gradAvgs, momentumBufferList))
    {
      var params := paramGroup;
      var momentum := defaults.momentum;
      grads, squareAvgs, gradAvgs, momentumBufferList := [], [], [], [];
      var i := 0;
      while i < |params|
        invariant 0 <= i <= |params|
        invariant WellFormed(state, defaults, centered)
        invariant Walk(old(state), params, gradients, defaults, centered, i)
                  == Progress(state, Collected(grads, squareAvgs, gradAvgs, momentumBufferList))
      {
        ghost var before := Progress(state, Collected(grads, squareAvgs, gradAvgs, momentumBufferList));
        var param, gradient := params[i], gradients[i];
        if gradient.Some? {
          grads := grads + [gradient.value];
          var st: Record;
          if param !in state {
            st := Record(0, Buffer(param, SquareAvg), None, None);
            if momentum > 0.0 {
              st := st.(momentumBuffer := Some(Buffer(param, MomentumBuffer)));
            }
            if centered {
              st := st.(gradAvg := Some(Buffer(param, GradAvg)));
            }
          } else {
            st := state[param];
          }
          assert st == Base(before.state, param, defaults, centered);
          squareAvgs := squareAvgs + [st.squareAvg];
          if momentum > 0.0 {
            momentumBufferList := momentumBufferList + [st.momentumBuffer.value];
          }
          if centered {
            gradAvgs := gradAvgs + [st.gradAvg.value];
          }
          state := state[param := st.(step := st.step + 1)];
        }
        WalkSlot(old(state), params, gradients, defaults, centered, i, before,
                 Progress(state, Collected(grads, squareAvgs, gradAvgs, momentumBufferList)));
        i := i + 1;
      }
    }
  }
}
