/**
 * `BeanLocator::lookup`: the session bean for a class name and a session ID.
 * The descriptor of the class decides the policy, checked in the order stateful,
 * singleton, stateless, message-driven, plain bean; a class without a descriptor
 * (or whose descriptor is none of these) gets a new instance and nothing else.
 */
module BeanLocator {
  import opened Wrappers
  import opened BeanManager
  import PhpStrings

  /** The `EnterpriseBeansException` thrown for a singleton that does not extend `\Stackable`. */
  datatype LookupError = NotStackable(className: ClassName)

  /** The position of each descriptor interface in the order `lookup` checks them. */
  function Rank(k: Kind): (r: nat)
    ensures r < 5
  {
    match k
    case Stateful => 0
    case Singleton => 1
    case Stateless => 2
    case MessageDriven => 3
    case PlainBean => 4
  }

  /** The policy `lookup` applies: the first descriptor interface, in check order, that the descriptor implements. */
  function Dispatch(kinds: set<Kind>): (r: Option<Kind>)
    ensures r.None? <==> kinds == {}
    ensures r.Some? ==> r.value in kinds && forall k :: k in kinds ==> Rank(r.value) <= Rank(k)
  {
    if kinds == {} then None
    else if Stateful in kinds then Some(Stateful)
    else if Singleton in kinds then Some(Singleton)
    else if Stateless in kinds then Some(Stateless)
    else if MessageDriven in kinds then Some(MessageDriven)
    else
      var k :| k in kinds;
      assert k == PlainBean by { assert Rank(k) < 5; }
      Some(PlainBean)
  }

  /** A new bean, returned as it is. */
  function Fresh(made: (Bean, ManagerState)): (Result<Bean, LookupError>, ManagerState) {
    (Success(made.0), made.1)
  }

  /** A new bean, after which the named callbacks run on it. */
  function Created(made: (Bean, ManagerState), callbacks: seq<string>): (Result<Bean, LookupError>, ManagerState) {
    (Success(made.0), made.1.(trace := made.1.trace + Invocations(made.0, callbacks)))
  }

  /** A stored bean, re-injected, after which the named callbacks run on it. */
  function Reattached(s: ManagerState, b: Bean, sessionId: SessionId, callbacks: seq<string>): (Result<Bean, LookupError>, ManagerState) {
    (Success(b), s.(trace := s.trace + [Injected(b, sessionId)] + Invocations(b, callbacks)))
  }

  /** The singleton instance just created, stored under its class name. */
  function RegisteredSingleton(made: (Bean, ManagerState), className: ClassName): (Bean, ManagerState) {
    (made.0, made.1.(singletonBeans := made.1.singletonBeans[className := made.0],
                     trace := made.1.trace + [Registered(className, made.0)]))
  }

  /**
   * The factory instance of a plain bean: a new instance of the factory's class when
   * that class name is not empty in PHP's sense, otherwise the bean of that name.
   */
  function FactoryInstance(s: ManagerState, f: Factory, sessionId: SessionId): (Bean, ManagerState) {
    if !PhpStrings.Empty(f.className) then Construct(s, f.className.value, sessionId, [])
    else (Service(f.name, sessionId), s)
  }

  /** The stateful branch: the bean stored for the session and class, else a new one (not stored). */
  function StatefulSpec(d: Descriptor, s: ManagerState, className: ClassName, sessionId: SessionId, args: seq<Arg>)
    : (Result<Bean, LookupError>, ManagerState)
  {
    var id := Identifier(sessionId, className);
    if id in s.statefulBeans then Reattached(s, s.statefulBeans[id].bean, sessionId, d.postDetach)
    else Created(Construct(s, className, sessionId, args), d.postConstruct)
  }

  /** The singleton branch: the stored singleton, else a failure or a new singleton stored under the class name. */
  function SingletonSpec(d: Descriptor, stackable: set<ClassName>, s: ManagerState, className: ClassName, sessionId: SessionId, args: seq<Arg>)
    : (Result<Bean, LookupError>, ManagerState)
  {
    if className in s.singletonBeans then Reattached(s, s.singletonBeans[className], sessionId, d.postDetach)
    else if className !in stackable then (Failure(NotStackable(className)), s)
    else Created(RegisteredSingleton(ConstructSingleton(s, className, sessionId, args), className), d.postConstruct)
  }

  /** The plain-bean branch: what the factory method returns, or a new instance of the descriptor's class. */
  function PlainBeanSpec(d: Descriptor, s: ManagerState, sessionId: SessionId, args: seq<Arg>)
    : (Result<Bean, LookupError>, ManagerState)
  {
    match d.factory
    case Some(f) =>
      var made := FactoryInstance(s, f, sessionId);
      (Success(Produced(made.0, f.methodName, args)), made.1)
    case None => Fresh(Construct(s, d.className, sessionId, args))
  }

  /** What `lookup` returns and what the bean manager then holds. */
  function LookupSpec(descriptors: map<ClassName, Descriptor>, stackable: set<ClassName>, s: ManagerState,
                      className: ClassName, sessionId: SessionId, args: seq<Arg>): (Result<Bean, LookupError>, ManagerState)
  {
    if className !in descriptors then Fresh(Construct(s, className, sessionId, args))
    else
      var d := descriptors[className];
      match Dispatch(d.kinds)
      case Some(Stateful) => StatefulSpec(d, s, className, sessionId, args)
      case Some(Singleton) => SingletonSpec(d, stackable, s, className, sessionId, args)
      case Some(Stateless) => Created(Construct(s, className, sessionId, args), d.postConstruct)
      case Some(MessageDriven) => Fresh(Construct(s, className, sessionId, args))
      case Some(PlainBean) => PlainBeanSpec(d, s, sessionId, args)
      case None => Fresh(Construct(s, className, sessionId, args))
  }

  /** One `foreach` over a descriptor's callbacks, invoking each on the instance. */
  method RunCallbacks(bm: BeanManager, b: Bean, callbacks: seq<string>)
    modifies bm
    ensures bm.trace == old(bm.trace) + Invocations(b, callbacks)
    ensures bm.statefulBeans == old(bm.statefulBeans) && bm.singletonBeans == old(bm.singletonBeans)
    ensures bm.constructed == old(bm.constructed)
  {
    for i := 0 to |callbacks|
      invariant bm.trace == old(bm.trace) + Invocations(b, callbacks[..i])
      invariant bm.statefulBeans == old(bm.statefulBeans) && bm.singletonBeans == old(bm.singletonBeans)
      invariant bm.constructed == old(bm.constructed)
    {
      assert callbacks[..i + 1][..i] == callbacks[..i];
      bm.trace := bm.trace + [Invoked(b, callbacks[i])];
    }
    assert callbacks[..|callbacks|] == callbacks;
  }

  /** The stateful session bean branch of `lookup`. */
  method LookupStateful(bm: BeanManager, descriptor: Descriptor, className: ClassName, sessionId: SessionId, args: seq<Arg>)
    returns (r: Result<Bean, LookupError>)
    modifies bm
    ensures (r, bm.State()) == StatefulSpec(descriptor, old(bm.State()), className, sessionId, args)
  {
    var id := Identifier(sessionId, className);
    if id in bm.statefulBeans {
      var instance := bm.statefulBeans[id].bean;
      bm.InjectDependencies(instance, sessionId);
      RunCallbacks(bm, instance, descriptor.postDetach);
      return Success(instance);
    }
    var instance := bm.NewInstance(className, sessionId, args);
    RunCallbacks(bm, instance, descriptor.postConstruct);
    return Success(instance);
  }

  /** The singleton session bean branch of `lookup`. */
  method LookupSingleton(bm: BeanManager, descriptor: Descriptor, className: ClassName, sessionId: SessionId, args: seq<Arg>)
    returns (r: Result<Bean, LookupError>)
    modifies bm
    ensures (r, bm.State()) == SingletonSpec(descriptor, bm.stackable, old(bm.State()), className, sessionId, args)
  {
    if className in bm.singletonBeans {
      var instance := bm.singletonBeans[className];
      bm.InjectDependencies(instance, sessionId);
      RunCallbacks(bm, instance, descriptor.postDetach);
      return Success(instance);
    }
    if className !in bm.stackable {
      return Failure(NotStackable(className));
    }
    var instance := bm.NewSingletonInstance(className, sessionId, args);
    bm.RegisterSingleton(className, instance);
    RunCallbacks(bm, instance, descriptor.postConstruct);
    return Success(instance);
  }

  /** The plain bean branch of `lookup`. */
  method LookupPlainBean(bm: BeanManager, descriptor: Descriptor, sessionId: SessionId, args: seq<Arg>)
    returns (r: Result<Bean, LookupError>)
    modifies bm
    ensures (r, bm.State()) == PlainBeanSpec(descriptor, old(bm.State()), sessionId, args)
  {
    if descriptor.factory.Some? {
      var factory := descriptor.factory.value;
      var factoryInstance;
      if !PhpStrings.Empty(factory.className) {
        factoryInstance := bm.NewInstance(factory.className.value, sessionId, []);
      } else {
        factoryInstance := Service(factory.name, sessionId);
      }
      return Success(Produced(factoryInstance, factory.methodName, args));
    }
    var instance := bm.NewInstance(descriptor.className, sessionId, args);
    return Success(instance);
  }

  /** `lookup`, following the source's chain of descriptor checks. */
  method Lookup(bm: BeanManager, className: ClassName, sessionId: SessionId, args: seq<Arg>) returns (r: Result<Bean, LookupError>)
    modifies bm
    ensures (r, bm.State()) == LookupSpec(bm.descriptors, bm.stackable, old(bm.State()), className, sessionId, args)
  {
    if className in bm.descriptors {
      var descriptor := bm.descriptors[className];

      if Stateful in descriptor.kinds {
        r := LookupStateful(bm, descriptor, className, sessionId, args);
        return;
      }

      if Singleton in descriptor.kinds {
        r := LookupSingleton(bm, descriptor, className, sessionId, args);
        return;
      }

      if Stateless in descriptor.kinds {
        var instance := bm.NewInstance(className, sessionId, args);
        RunCallbacks(bm, instance, descriptor.postConstruct);
        return Success(instance);
      }

      if MessageDriven in descriptor.kinds {
        var instance := bm.NewInstance(className, sessionId, args);
        return Success(instance);
      }

      if PlainBean in descriptor.kinds {
        r := LookupPlainBean(bm, descriptor, sessionId, args);
        return;
      }
    }

    var instance := bm.NewInstance(className, sessionId, args);
    return Success(instance);
  }

  /** The policy a descriptor selects, if the class has one. */
  function PolicyOf(descriptors: map<ClassName, Descriptor>, className: ClassName): Option<Kind> {
    if className in descriptors then Dispatch(descriptors[className].kinds) else None
  }

  /** A descriptor that implements several interfaces gets the policy checked first; stateful wins over all. */
  lemma StatefulCheckedFirst(kinds: set<Kind>)
    requires Stateful in kinds
    ensures Dispatch(kinds) == Some(Stateful)
  {
  }

  /** Without a descriptor (or one of no known kind) the container creates a new instance and runs no callback. */
  lemma NoDescriptorCreatesPlainInstance(descriptors: map<ClassName, Descriptor>, stackable: set<ClassName>, s: ManagerState,
                                         className: ClassName, sessionId: SessionId, args: seq<Arg>)
    requires PolicyOf(descriptors, className).None?
    ensures var (r, s') := LookupSpec(descriptors, stackable, s, className, sessionId, args);
      r == Success(Instance(s.constructed, className, sessionId, args)) &&
      s' == s.(constructed := s.constructed + 1, trace := s.trace + [Constructed(r.value)])
  {
  }

  /**
   * A stateful hit returns the stored instance itself, re-injected, after all
   * post-detach callbacks in declaration order; nothing is constructed or stored.
   */
  lemma StatefulHitReturnsStored(descriptors: map<ClassName, Descriptor>, stackable: set<ClassName>, s: ManagerState,
                                 className: ClassName, sessionId: SessionId, args: seq<Arg>)
    requires PolicyOf(descriptors, className) == Some(Stateful)
    requires Identifier(sessionId, className) in s.statefulBeans
    ensures var (r, s') := LookupSpec(descriptors, stackable, s, className, sessionId, args);
      var b := s.statefulBeans[Identifier(sessionId, className)].bean;
      r == Success(b) &&
      s'.constructed == s.constructed && s'.statefulBeans == s.statefulBeans && s'.singletonBeans == s.singletonBeans &&
      s'.trace == s.trace + [Injected(b, sessionId)] + Invocations(b, descriptors[className].postDetach)
  {
  }

  /**
   * A stateful miss constructs exactly one instance and runs the post-construct
   * callbacks on it, in order; no post-detach callback runs and the instance is not stored.
   */
  lemma StatefulMissConstructsOnce(descriptors: map<ClassName, Descriptor>, stackable: set<ClassName>, s: ManagerState,
                                   className: ClassName, sessionId: SessionId, args: seq<Arg>)
    requires PolicyOf(descriptors, className) == Some(Stateful)
    requires Identifier(sessionId, className) !in s.statefulBeans
    ensures var (r, s') := LookupSpec(descriptors, stackable, s, className, sessionId, args);
      var b := Instance(s.constructed, className, sessionId, args);
      r == Success(b) &&
      s'.constructed == s.constructed + 1 && s'.statefulBeans == s.statefulBeans && s'.singletonBeans == s.singletonBeans &&
      s'.trace == s.trace + [Constructed(b)] + Invocations(b, descriptors[className].postConstruct)
  {
  }

  /**
   * Because a stateful miss does not store its instance, looking up the same
   * stateful bean twice in a row, with nothing stored, yields two different instances.
   */
  lemma StatefulMissIsNotRemembered(descriptors: map<ClassName, Descriptor>, stackable: set<ClassName>, s: ManagerState,
                                    className: ClassName, sessionId: SessionId, args: seq<Arg>)
    requires PolicyOf(descriptors, className) == Some(Stateful)
    requires Identifier(sessionId, className) !in s.statefulBeans
    ensures var (r1, s1) := LookupSpec(descriptors, stackable, s, className, sessionId, args);
      var (r2, s2) := LookupSpec(descriptors, stackable, s1, className, sessionId, args);
      r1.Success? && r2.Success? && r1.value != r2.value && s2.constructed == s.constructed + 2
  {
    StatefulMissConstructsOnce(descriptors, stackable, s, className, sessionId, args);
    var (r1, s1) := LookupSpec(descriptors, stackable, s, className, sessionId, args);
    StatefulMissConstructsOnce(descriptors, stackable, s1, className, sessionId, args);
  }

  /** A singleton whose class does not extend `\Stackable` fails, and nothing is constructed, stored or run. */
  lemma UnstackableSingletonFails(descriptors: map<ClassName, Descriptor>, stackable: set<ClassName>, s: ManagerState,
                                  className: ClassName, sessionId: SessionId, args: seq<Arg>)
    requires PolicyOf(descriptors, className) == Some(Singleton)
    requires className !in s.singletonBeans && className !in stackable
    ensures LookupSpec(descriptors, stackable, s, className, sessionId, args) == (Failure(NotStackable(className)), s)
  {
  }

  /**
   * A singleton miss stores the new instance under the class name before the
   * post-construct callbacks run on it.
   */
  lemma SingletonMissStoresBeforeCallbacks(descriptors: map<ClassName, Descriptor>, stackable: set<ClassName>, s: ManagerState,
                                           className: ClassName, sessionId: SessionId, args: seq<Arg>)
    requires PolicyOf(descriptors, className) == Some(Singleton)
    requires className !in s.singletonBeans && className in stackable
    ensures var (r, s') := LookupSpec(descriptors, stackable, s, className, sessionId, args);
      var b := Instance(s.constructed, className, sessionId, args);
      r == Success(b) &&
      s'.singletonBeans == s.singletonBeans[className := b] && s'.statefulBeans == s.statefulBeans &&
      s'.constructed == s.constructed + 1 &&
      s'.trace == s.trace + [SingletonConstructed(b), Registered(className, b)] + Invocations(b, descriptors[className].postConstruct)
  {
  }

  /**
   * After a singleton miss, the next lookup of the same class returns that same
   * instance through the hit branch: re-injected, post-detach callbacks run, nothing constructed.
   */
  lemma SingletonCreatedOnce(descriptors: map<ClassName, Descriptor>, stackable: set<ClassName>, s: ManagerState,
                             className: ClassName, sessionId: SessionId, args: seq<Arg>, sessionId2: SessionId, args2: seq<Arg>)
    requires PolicyOf(descriptors, className) == Some(Singleton)
    requires className !in s.singletonBeans && className in stackable
    ensures var (r1, s1) := LookupSpec(descriptors, stackable, s, className, sessionId, args);
      var (r2, s2) := LookupSpec(descriptors, stackable, s1, className, sessionId2, args2);
      r1.Success? && r2 == r1 && s2.constructed == s1.constructed && s2.singletonBeans == s1.singletonBeans &&
      s2.trace == s1.trace + [Injected(r1.value, sessionId2)] + Invocations(r1.value, descriptors[className].postDetach)
  {
    SingletonMissStoresBeforeCallbacks(descriptors, stackable, s, className, sessionId, args);
  }

  /**
   * A stateless lookup always constructs a new instance and runs the post-construct
   * callbacks; it neither reads nor writes the stored beans, so two states that
   * differ only in what they store give the same bean.
   */
  lemma StatelessIgnoresStore(descriptors: map<ClassName, Descriptor>, stackable: set<ClassName>, s: ManagerState, t: ManagerState,
                              className: ClassName, sessionId: SessionId, args: seq<Arg>)
    requires PolicyOf(descriptors, className) == Some(Stateless)
    requires t.constructed == s.constructed && t.trace == s.trace
    ensures var (r, s') := LookupSpec(descriptors, stackable, s, className, sessionId, args);
      var b := Instance(s.constructed, className, sessionId, args);
      r == Success(b) && s'.statefulBeans == s.statefulBeans && s'.singletonBeans == s.singletonBeans &&
      s'.constructed == s.constructed + 1 &&
      s'.trace == s.trace + [Constructed(b)] + Invocations(b, descriptors[className].postConstruct) &&
      LookupSpec(descriptors, stackable, t, className, sessionId, args).0 == r
  {
  }

  /** A message-driven bean is a new instance, with no callback at all. */
  lemma MessageDrivenNoCallbacks(descriptors: map<ClassName, Descriptor>, stackable: set<ClassName>, s: ManagerState,
                                 className: ClassName, sessionId: SessionId, args: seq<Arg>)
    requires PolicyOf(descriptors, className) == Some(MessageDriven)
    ensures var (r, s') := LookupSpec(descriptors, stackable, s, className, sessionId, args);
      r == Success(Instance(s.constructed, className, sessionId, args)) &&
      s' == s.(constructed := s.constructed + 1, trace := s.trace + [Constructed(r.value)])
  {
  }

  /**
   * A plain bean with a factory is what the factory method returns for the
   * arguments; the factory is a new instance of its class when that class name
   * is set, and otherwise the bean found under the factory's name. Without a
   * factory it is a new instance of the descriptor's class.
   */
  lemma PlainBeanFactory(descriptors: map<ClassName, Descriptor>, stackable: set<ClassName>, s: ManagerState,
                         className: ClassName, sessionId: SessionId, args: seq<Arg>)
    requires PolicyOf(descriptors, className) == Some(PlainBean)
    ensures var (r, s') := LookupSpec(descriptors, stackable, s, className, sessionId, args);
      var d := descriptors[className];
      s'.statefulBeans == s.statefulBeans && s'.singletonBeans == s.singletonBeans &&
      match d.factory
      case None =>
        r == Success(Instance(s.constructed, d.className, sessionId, args)) && s'.constructed == s.constructed + 1
      case Some(f) =>
        if f.className.Some? && f.className.value != "" && f.className.value != "0" then
          r == Success(Produced(Instance(s.constructed, f.className.value, sessionId, []), f.methodName, args)) &&
          s'.constructed == s.constructed + 1
        else
          r == Success(Produced(Service(f.name, sessionId), f.methodName, args)) && s' == s
  {
  }

  lemma {:induction false} CreatedBeforeLater(b: Bean, n: nat, m: nat)
    requires CreatedBefore(b, n) && n <= m
    ensures CreatedBefore(b, m)
  {
    match b
    case Instance(_, _, _, _) =>
    case Service(_, _) =>
    case Produced(f, _, _) => CreatedBeforeLater(f, n, m);
  }

  /**
   * What a lookup can do to the stored beans: the stateful store never changes, and
   * the singletons change only by storing a bean the lookup has just created.
   */
  lemma LookupStoreEffect(descriptors: map<ClassName, Descriptor>, stackable: set<ClassName>, s: ManagerState,
                          className: ClassName, sessionId: SessionId, args: seq<Arg>)
    ensures var (r, s') := LookupSpec(descriptors, stackable, s, className, sessionId, args);
      s'.statefulBeans == s.statefulBeans && s.constructed <= s'.constructed <= s.constructed + 1 &&
      (s'.constructed == s.constructed + 1 ==> r.Success? && !CreatedBefore(r.value, s.constructed) && CreatedBefore(r.value, s'.constructed)) &&
      (s'.singletonBeans == s.singletonBeans ||
       (r.Success? && s'.constructed == s.constructed + 1 && s'.singletonBeans == s.singletonBeans[className := r.value]))
  {
    if className in descriptors {
      match Dispatch(descriptors[className].kinds)
      case Some(Stateful) =>
      case Some(Singleton) =>
      case Some(Stateless) =>
      case Some(MessageDriven) =>
      case Some(PlainBean) =>
      case None =>
    }
  }

  /**
   * Every lookup keeps each stored bean older than the next instance number, and
   * a bean it creates is never one already stored: a new instance is new.
   */
  lemma LookupKeepsStoreOlder(descriptors: map<ClassName, Descriptor>, stackable: set<ClassName>, s: ManagerState,
                              className: ClassName, sessionId: SessionId, args: seq<Arg>)
    requires StoredCreatedBefore(s)
    ensures var (r, s') := LookupSpec(descriptors, stackable, s, className, sessionId, args);
      StoredCreatedBefore(s') &&
      (s'.constructed > s.constructed ==> r.Success? && !CreatedBefore(r.value, s.constructed))
  {
    LookupStoreEffect(descriptors, stackable, s, className, sessionId, args);
    var (r, s') := LookupSpec(descriptors, stackable, s, className, sessionId, args);
    forall id | id in s'.statefulBeans ensures CreatedBefore(s'.statefulBeans[id].bean, s'.constructed) {
      CreatedBeforeLater(s.statefulBeans[id].bean, s.constructed, s'.constructed);
    }
    forall c | c in s'.singletonBeans ensures CreatedBefore(s'.singletonBeans[c], s'.constructed) {
      if c in s.singletonBeans && s'.singletonBeans[c] == s.singletonBeans[c] {
        CreatedBeforeLater(s.singletonBeans[c], s.constructed, s'.constructed);
      }
    }
  }
}
