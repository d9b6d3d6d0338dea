/**
 * A `DfE::Wizard::Base` instance as an object: the results of its operations
 * are those of module `Base`, and on top of them it keeps the messages its
 * logger is sent and the store service it owns.
 */
module WizardObject {
  import opened Wrappers
  import opened Step
  import opened TestWizard
  import Base

  /** A value Ruby treats as false. */
  predicate Falsey(v: Value) {
    v == Nil || v == Bool(false)
  }

  /**
   * A wizard instance. `logCondition` is what its `log_condition?` answers;
   * `infoCalls` counts the messages its logger has been sent; `store` is the
   * store service it builds with itself, when its class declares one.
   */
  class Wizard {
    const config: Base.Config
    const logCondition: bool
    var infoCalls: nat
    var store: MyAwesomeStoreService?

    /** The store exists exactly when the class declares one, and it holds this wizard. */
    predicate Valid()
      reads this, store
    {
      (store != null <==> HasStore(config.wizard)) && (store != null ==> store.wizard == this)
    }

    constructor(config: Base.Config, logCondition: bool)
      ensures this.config == config && this.logCondition == logCondition
      ensures infoCalls == 0 && Valid()
      ensures store != null ==> fresh(store)
    {
      this.config := config;
      this.logCondition := logCondition;
      infoCalls := 0;
      new;
      if HasStore(config.wizard) {
        store := new MyAwesomeStoreService(this);
      } else {
        store := null;
      }
    }

    /** Sends the logger a message, which it drops unless `log_condition?` holds. */
    method Log()
      modifies this`infoCalls
      ensures logCondition ==> infoCalls == old(infoCalls) + 1
      ensures !logCondition ==> infoCalls == old(infoCalls)
    {
      if logCondition {
        infoCalls := infoCalls + 1;
      }
    }

    /**
     * `current_step`, logging the step it builds. Without a current key
     * nothing is built and nothing is logged.
     */
    method CurrentStep() returns (r: Result<Option<Base.StepInstance>, Failure>)
      requires Valid()
      modifies this`infoCalls
      ensures Valid()
      ensures r == Base.CurrentStep(config)
      ensures Base.Current(config).Ok? && logCondition ==> infoCalls > old(infoCalls)
      ensures !logCondition || config.currentStep == None ==> infoCalls == old(infoCalls)
    {
      r := Base.CurrentStep(config);
      if r.Ok? && r.value.Some? {
        Log();
      }
    }

    /** `next_step_path`, which builds the current step on the way. */
    method NextStepPath(acronyms: seq<string>) returns (r: Result<string, Failure>)
      requires Valid()
      modifies this`infoCalls
      ensures Valid()
      ensures r == Base.NextStepPath(config, acronyms)
      ensures Base.Current(config).Ok? && logCondition ==> infoCalls > old(infoCalls)
      ensures !logCondition || config.currentStep == None ==> infoCalls == old(infoCalls)
    {
      var step := CurrentStep();
      r := Base.NextStepPath(config, acronyms);
    }

    /** `save`: the store's `save` when there is a store, a falsey value otherwise. */
    method Save() returns (v: Value)
      requires Valid()
      ensures HasStore(config.wizard) ==> v == Sym("save_from_store_service")
      ensures !HasStore(config.wizard) ==> Falsey(v)
    {
      if store != null {
        v := store.Save();
      } else {
        v := Bool(false);
      }
    }
  }
}
