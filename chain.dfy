/** The decorator chain of neurotorch/core/trainer.py (lines 137-151): a
    `TrainerDecorator` wraps one object in `_trainer`, and `getTrainer`
    follows those references down to the first plain `Trainer`. */
module Chain {

  /** The object stored in a `_trainer` field, or the object a method is
      called on. `PlainTrainer` is a `Trainer` that is not a decorator, named
      by the identity of the instance; `Foreign` is any other object. */
  datatype Wrapped = PlainTrainer(id: nat) | Decorator(inner: Wrapped) | Foreign

  /** What a call `o.getTrainer()` produces. */
  datatype Resolution =
    | Root(id: nat)    // the innermost plain Trainer
    | NoneReturned     // the body falls through both `if`s and returns None
    | NoGetTrainer     // AttributeError: only decorators define getTrainer

  /** Number of decorator layers on top of `o`. */
  function Depth(o: Wrapped): nat {
    if o.Decorator? then 1 + Depth(o.inner) else 0
  }

  /** The object left after removing every decorator layer: an independent
      reference for what `getTrainer` should find. */
  function Innermost(o: Wrapped): (r: Wrapped)
    ensures !r.Decorator?
    ensures Depth(o) == 0 ==> r == o
  {
    if o.Decorator? then Innermost(o.inner) else o
  }

  /** `getTrainer` (lines 147-151). */
  function GetTrainer(o: Wrapped): (r: Resolution)
    ensures o.Decorator? <==> !r.NoGetTrainer?
  {
    match o
    case Decorator(inner) =>
      if inner.Decorator? then GetTrainer(inner)
      else if inner.PlainTrainer? then Root(inner.id)
      else NoneReturned
    case _ => NoGetTrainer
  }

  /** On any finite chain of decorators, `getTrainer` returns the innermost
      object if it is a plain `Trainer` and `None` otherwise; never an
      intermediate decorator. */
  lemma {:induction false} GetTrainerFindsInnermost(o: Wrapped)
    requires o.Decorator?
    ensures GetTrainer(o) == if Innermost(o).PlainTrainer? then Root(Innermost(o).id) else NoneReturned
  {
    if o.inner.Decorator? {
      GetTrainerFindsInnermost(o.inner);
    }
  }

  /** `k` decorator layers around `o`. */
  function Wrap(k: nat, o: Wrapped): (r: Wrapped)
    ensures Depth(r) == k + Depth(o)
  {
    if k == 0 then o else Decorator(Wrap(k - 1, o))
  }

  /** However many decorators wrap one plain trainer, all of them resolve to
      that same instance. */
  lemma {:induction false} WrappedResolvesToRoot(k: nat, id: nat)
    ensures GetTrainer(Wrap(k + 1, PlainTrainer(id))) == Root(id)
  {
    if k > 0 {
      WrappedResolvesToRoot(k - 1, id);
    }
  }

  /** Which training loop a call `o.run_training()` executes. */
  datatype Launch =
    | DecoratorLoop(root: nat)  // TrainerDecorator.run_training on the root's volume and max_epochs
    | FailsAtGetTrainer         // Trainer.run_training raises at line 98: no getTrainer
    | FailsOnNone               // `None.volume` at line 167: the chain ends in a foreign object
    | NotATrainer

  /** `run_training` as dispatched by Python: `TrainerDecorator` overrides it,
      and the base version begins by calling `self.getTrainer()`, which a plain
      `Trainer` does not have. */
  function RunTraining(o: Wrapped): (r: Launch)
    ensures r.DecoratorLoop? <==> o.Decorator? && Innermost(o).PlainTrainer?
    ensures r.DecoratorLoop? ==> Innermost(o) == PlainTrainer(r.root)
    ensures r.FailsOnNone? <==> o.Decorator? && Innermost(o).Foreign?
    ensures r.FailsAtGetTrainer? <==> o.PlainTrainer?
  {
    match o
    case PlainTrainer(_) => FailsAtGetTrainer
    case Foreign => NotATrainer
    case Decorator(_) =>
      GetTrainerFindsInnermost(o);
      match GetTrainer(o)
      case Root(id) => DecoratorLoop(id)
      case _ => FailsOnNone
  }
}
