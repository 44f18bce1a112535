/**
 * The class decorators @Controller and @Repository
 * (src/stereotype/controller.stereotype.ts, src/stereotype/repository.stereotype.ts)
 * and their option lookups. Class-level metadata is looked up with an
 * inheriting read, so the nearest class on the constructor chain that was
 * decorated supplies the options.
 */
module Stereotypes {
  import opened Wrappers
  import opened Json

  datatype StereotypeType = ControllerStereotype | RepositoryStereotype

  /** The stereotype identity recorded on a decorated class. */
  datatype StereotypeIdentity = StereotypeIdentity(symbol: string, kind: StereotypeType)

  /** The options object passed to @Controller; `extra` holds any further fields a caller supplies. */
  datatype ControllerOptionsInput = ControllerOptionsInput(
    basePath: string, multiTenant: Option<bool>, system: Option<string>, resource: Option<string>,
    extra: map<string, Value>)

  /** ControllerOptions as stored. */
  datatype ControllerOptions = ControllerOptions(basePath: string, multiTenant: bool, system: Option<string>, resource: Option<string>)

  /** What decorating one class records on it. */
  datatype ClassDecoration<O> = ClassDecoration(identity: StereotypeIdentity, options: O)

  /** @Controller(symbol, options): the identity, and the options with multiTenant defaulted. */
  function Controller(symbol: string, input: ControllerOptionsInput): (r: ClassDecoration<ControllerOptions>)
    ensures r.identity == StereotypeIdentity(symbol, ControllerStereotype)
    ensures r.options.basePath == input.basePath && r.options.system == input.system && r.options.resource == input.resource
    ensures r.options.multiTenant <==> input.multiTenant == Some(true)
  {
    ClassDecoration(StereotypeIdentity(symbol, ControllerStereotype),
      ControllerOptions(input.basePath, input.multiTenant.GetOr(false), input.system, input.resource))
  }

  /** Extra option fields are not kept: two inputs that agree on the four known fields store the same options. */
  lemma ControllerDropsExtraFields(symbol: string, a: ControllerOptionsInput, b: ControllerOptionsInput)
    requires a.basePath == b.basePath && a.multiTenant == b.multiTenant && a.system == b.system && a.resource == b.resource
    ensures Controller(symbol, a) == Controller(symbol, b)
  {
  }

  datatype RepositoryOptions = RepositoryOptions(multiTenant: bool)

  /** @Repository(symbol, options?): multiTenant defaults to false, and nothing else is stored. */
  function Repository(symbol: string, options: Option<RepositoryOptions>): (r: ClassDecoration<RepositoryOptions>)
    ensures r.identity == StereotypeIdentity(symbol, RepositoryStereotype)
    ensures r.options.multiTenant <==> (options.Some? && options.value.multiTenant)
  {
    ClassDecoration(StereotypeIdentity(symbol, RepositoryStereotype),
      RepositoryOptions(if options.Some? then options.value.multiTenant else false))
  }

  /** `Reflect.getMetadata(key, target)` for class-level metadata: the chain lists the own
      metadata of the class and then of each ancestor constructor, nearest first. */
  function InheritedLookup<O>(chain: seq<Option<O>>): (r: Option<O>)
    ensures r.None? <==> forall i :: 0 <= i < |chain| ==> chain[i].None?
    ensures r.Some? ==> exists i :: 0 <= i < |chain| && chain[i] == r && forall j :: 0 <= j < i ==> chain[j].None?
  {
    if chain == [] then None
    else if chain[0].Some? then chain[0]
    else
      var r := InheritedLookup(chain[1..]);
      assert forall i :: 1 <= i < |chain| ==> chain[i] == chain[1..][i - 1];
      r
  }

  /** getControllerOptions: the nearest decorated class's options, or undefined. */
  function GetControllerOptions(chain: seq<Option<ControllerOptions>>): Option<ControllerOptions>
  {
    InheritedLookup(chain)
  }

  /** getRepositoryOptions: the nearest decorated class's options, or undefined. */
  function GetRepositoryOptions(chain: seq<Option<RepositoryOptions>>): Option<RepositoryOptions>
  {
    InheritedLookup(chain)
  }

  /** A class decorated with @Controller reads back exactly the options it stored. */
  lemma DecoratedControllerOptions(symbol: string, input: ControllerOptionsInput, ancestors: seq<Option<ControllerOptions>>)
    ensures GetControllerOptions([Some(Controller(symbol, input).options)] + ancestors) == Some(Controller(symbol, input).options)
  {
  }

  /** An undecorated class with undecorated ancestors has no controller options. */
  lemma {:induction false} UndecoratedControllerOptions(chain: seq<Option<ControllerOptions>>)
    requires forall i :: 0 <= i < |chain| ==> chain[i].None?
    ensures GetControllerOptions(chain).None?
  {
  }
}
