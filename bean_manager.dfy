/**
 * The bean manager as the session-bean lookup and the garbage collector see it:
 * the stateful session bean store with the lifetime of each entry, the singleton
 * session beans keyed by class name, a count of the instances it has created, and
 * a trace of what it did to instances (construction, injection, callbacks,
 * registration and destruction). What injection, callbacks and factories do inside
 * an instance is not modelled; they are recorded as names in the trace.
 */
module BeanManager {
  import opened Wrappers

  type ClassName = string
  /** The session ID; PHP's `null` default is `None`. */
  type SessionId = Option<string>
  type Arg = string

  /** The descriptor interfaces `lookup` dispatches on. */
  datatype Kind = Stateful | Singleton | Stateless | MessageDriven | PlainBean

  /** A bean factory: a class name (possibly empty), a bean name and the factory method. */
  datatype Factory = Factory(name: string, className: Option<string>, methodName: string)

  /**
   * An object descriptor: the class it describes, the descriptor interfaces it
   * implements, its post-construct and post-detach callback names in declaration
   * order, and its factory, if any.
   */
  datatype Descriptor = Descriptor(
    className: ClassName,
    kinds: set<Kind>,
    postConstruct: seq<string>,
    postDetach: seq<string>,
    factory: Option<Factory>)

  /**
   * A bean as the caller receives it: an instance created by the bean manager
   * (numbered in creation order), a bean found by name in the naming directory,
   * or what a factory method returned.
   */
  datatype Bean =
    | Instance(id: nat, className: ClassName, sessionId: SessionId, args: seq<Arg>)
    | Service(name: string, sessionId: SessionId)
    | Produced(factory: Bean, methodName: string, args: seq<Arg>)

  /** The key of a stateful session bean: the session and the bean's class. */
  datatype Identifier = Identifier(sessionId: SessionId, className: ClassName)

  /** A stored stateful session bean and the time (in seconds) up to which it lives. */
  datatype Stored = Stored(bean: Bean, lifetime: int)

  datatype Event =
    | Constructed(bean: Bean)
    | SingletonConstructed(bean: Bean)
    | Injected(bean: Bean, sessionId: SessionId)
    | Invoked(bean: Bean, callback: string)
    | Registered(className: ClassName, bean: Bean)
    | Destroyed(id: Identifier, bean: Bean)

  datatype ManagerState = ManagerState(
    statefulBeans: map<Identifier, Stored>,
    singletonBeans: map<ClassName, Bean>,
    constructed: nat,
    trace: seq<Event>)

  /** The lifetime map of the stateful session bean store. */
  function Lifetimes(store: map<Identifier, Stored>): (r: map<Identifier, int>)
    ensures r.Keys == store.Keys
    ensures forall id :: id in r ==> r[id] == store[id].lifetime
  {
    map id | id in store :: store[id].lifetime
  }

  /** `newInstance`: the next instance number goes to a new instance of the class. */
  function Construct(s: ManagerState, className: ClassName, sessionId: SessionId, args: seq<Arg>): (r: (Bean, ManagerState))
    ensures r.0 == Instance(s.constructed, className, sessionId, args)
    ensures r.1 == s.(constructed := s.constructed + 1, trace := s.trace + [Constructed(r.0)])
  {
    var b := Instance(s.constructed, className, sessionId, args);
    (b, s.(constructed := s.constructed + 1, trace := s.trace + [Constructed(b)]))
  }

  /**
   * `newSingletonSessionBeanInstance`: like `newInstance`, the next instance number
   * goes to a new instance of the class, but the trace records the singleton entry point.
   */
  function ConstructSingleton(s: ManagerState, className: ClassName, sessionId: SessionId, args: seq<Arg>): (r: (Bean, ManagerState))
    ensures r.0 == Instance(s.constructed, className, sessionId, args)
    ensures r.1 == s.(constructed := s.constructed + 1, trace := s.trace + [SingletonConstructed(r.0)])
  {
    var b := Instance(s.constructed, className, sessionId, args);
    (b, s.(constructed := s.constructed + 1, trace := s.trace + [SingletonConstructed(b)]))
  }

  /** The trace of running the named callbacks on a bean, in order. */
  function Invocations(b: Bean, callbacks: seq<string>): (r: seq<Event>)
    ensures |r| == |callbacks|
    ensures forall i :: 0 <= i < |r| ==> r[i] == Invoked(b, callbacks[i])
  {
    if callbacks == [] then [] else Invocations(b, callbacks[..|callbacks| - 1]) + [Invoked(b, callbacks[|callbacks| - 1])]
  }

  /** Every instance number inside a bean is below n. */
  predicate CreatedBefore(b: Bean, n: nat) {
    match b
    case Instance(id, _, _, _) => id < n
    case Service(_, _) => true
    case Produced(f, _, _) => CreatedBefore(f, n)
  }

  /** Every bean the manager stores was created before the current instance number. */
  predicate StoredCreatedBefore(s: ManagerState) {
    (forall id :: id in s.statefulBeans ==> CreatedBefore(s.statefulBeans[id].bean, s.constructed)) &&
    (forall c :: c in s.singletonBeans ==> CreatedBefore(s.singletonBeans[c], s.constructed))
  }

  class BeanManager {
    /** The object descriptors of the application, keyed by class name. */
    const descriptors: map<ClassName, Descriptor>
    /** The classes that extend `\Stackable`. */
    const stackable: set<ClassName>
    var statefulBeans: map<Identifier, Stored>
    var singletonBeans: map<ClassName, Bean>
    var constructed: nat
    var trace: seq<Event>

    constructor(descriptors: map<ClassName, Descriptor>, stackable: set<ClassName>)
      ensures this.descriptors == descriptors && this.stackable == stackable
      ensures State() == ManagerState(map[], map[], 0, [])
    {
      this.descriptors := descriptors;
      this.stackable := stackable;
      statefulBeans := map[];
      singletonBeans := map[];
      constructed := 0;
      trace := [];
    }

    function State(): ManagerState
      reads this
    {
      ManagerState(statefulBeans, singletonBeans, constructed, trace)
    }

    method NewInstance(className: ClassName, sessionId: SessionId, args: seq<Arg>) returns (b: Bean)
      modifies this
      ensures b == Instance(old(constructed), className, sessionId, args)
      ensures constructed == old(constructed) + 1 && trace == old(trace) + [Constructed(b)]
      ensures statefulBeans == old(statefulBeans) && singletonBeans == old(singletonBeans)
    {
      b := Instance(constructed, className, sessionId, args);
      constructed := constructed + 1;
      trace := trace + [Constructed(b)];
    }

    method NewSingletonInstance(className: ClassName, sessionId: SessionId, args: seq<Arg>) returns (b: Bean)
      modifies this
      ensures b == Instance(old(constructed), className, sessionId, args)
      ensures constructed == old(constructed) + 1 && trace == old(trace) + [SingletonConstructed(b)]
      ensures statefulBeans == old(statefulBeans) && singletonBeans == old(singletonBeans)
    {
      b := Instance(constructed, className, sessionId, args);
      constructed := constructed + 1;
      trace := trace + [SingletonConstructed(b)];
    }

    method InjectDependencies(b: Bean, sessionId: SessionId)
      modifies this
      ensures trace == old(trace) + [Injected(b, sessionId)]
      ensures statefulBeans == old(statefulBeans) && singletonBeans == old(singletonBeans) && constructed == old(constructed)
    {
      trace := trace + [Injected(b, sessionId)];
    }

    /** `getSingletonSessionBeans()->set`: stores the singleton under its class name. */
    method RegisterSingleton(className: ClassName, b: Bean)
      modifies this
      ensures singletonBeans == old(singletonBeans)[className := b]
      ensures trace == old(trace) + [Registered(className, b)]
      ensures statefulBeans == old(statefulBeans) && constructed == old(constructed)
    {
      singletonBeans := singletonBeans[className := b];
      trace := trace + [Registered(className, b)];
    }

    /** Removes a stateful session bean from the store, passing it to `destroyBeanInstance`. */
    method RemoveStateful(id: Identifier)
      requires id in statefulBeans
      modifies this
      ensures statefulBeans == old(statefulBeans) - {id}
      ensures trace == old(trace) + [Destroyed(id, old(statefulBeans)[id].bean)]
      ensures singletonBeans == old(singletonBeans) && constructed == old(constructed)
    {
      trace := trace + [Destroyed(id, statefulBeans[id].bean)];
      statefulBeans := statefulBeans - {id};
    }
  }
}
