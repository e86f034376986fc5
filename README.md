# appserver core: bean lookup, garbage collection and configuration merging

This project models, in Dafny, the core of the appserver application server and
proves properties of that model:

- **Session bean lookup** (`BeanLocator::lookup`). The object descriptor of a
  class decides the policy, in this order: stateful, singleton, stateless,
  message-driven, plain bean.
  - A stateful bean is taken from the stateful store when present, re-injected
    and given its post-detach callbacks. Otherwise a new one is constructed.
  - A singleton is taken from the singleton store. Otherwise it must extend
    `\Stackable`, and it is constructed and stored before its post-construct
    callbacks run.
  - Stateless and message-driven beans are always new.
  - Plain beans may come from a factory.
  - The bean manager is a class over a state value (stores, an instance counter
    and a trace of construction, injection, callback, registration and
    destruction events). `Lookup` is proved equal to a functional specification,
    `LookupSpec`, and every policy property is a lemma about `LookupSpec`.
- **Stateful session bean garbage collector** (`StandardGarbageCollector`). One
  sweep at a sampled time removes, and hands to the destroy hook, every bean
  whose lifetime lies strictly before that time. It counts the beans it keeps.
  The default timeout is five seconds in microseconds.
- **Extension injector parameters** (`ExtensionInjectorParameterTrait`). An
  `extensionType` such as `Some\Injector('a', b, c)` is parsed into an injector
  class and its first three parameters, lazily and at most once.
- **Configuration nodes.**
  - Container node: its servers keyed by primary key, lookups by name,
    `attachServer`, and `merge` by glob-matched server names.
  - Authentications and jobs: lookup by URI or name, and the URI-keyed array.
- **Deployment service and deployments.**
  - Deployments keyed by UUID (`findAll`, `load`).
  - The system properties prepared for a web application.
  - `loadContextInstance`, which names the context after the path's last
    component.
  - `loadContainerInstance`, which merges each declared container into the
    system container of the same name, or attaches it. Unreadable files are
    skipped.
  - `loadContainerInstances`, which returns early when application
    configuration is disallowed.
  - The lazily created services of `AbstractDeployment`.

PHP ordered arrays are modelled as sequences of (key, value) pairs with distinct
keys (`PhpArray`). Assigning to an existing key keeps its position; a new key is
appended. PHP's `empty`, `strstr`, `str_replace`, `explode`, `basename` and
`fnmatch` are modelled in `PhpStrings` and `Glob`.

The source's `lookup` does not store a stateful bean it has just created; it
only constructs it and runs its callbacks. The model follows the code:
`StatefulMissIsNotRemembered` proves that two lookups in a row yield two
different instances.

## Model

| member | source | states |
|---|---|---|
| BeanLocator.Lookup | src/AppserverIo/Appserver/PersistenceContainer/BeanLocator.php:60-182 | The returned bean and the new bean manager state are those of `LookupSpec`, which follows the descriptor checks in source order. |
| BeanLocator.LookupStateful | src/AppserverIo/Appserver/PersistenceContainer/BeanLocator.php:73-100 | The stateful branch equals `StatefulSpec`: the stored bean re-injected with post-detach callbacks, or a new instance with post-construct callbacks. |
| BeanLocator.LookupSingleton | src/AppserverIo/Appserver/PersistenceContainer/BeanLocator.php:103-138 | The singleton branch equals `SingletonSpec`: the stored singleton, the not-stackable failure, or a new instance made by the singleton entry point, stored and then called back. |
| BeanLocator.LookupPlainBean | src/AppserverIo/Appserver/PersistenceContainer/BeanLocator.php:161-177 | The plain-bean branch equals `PlainBeanSpec`: the factory method's product, or a new instance of the descriptor's class. |
| BeanLocator.RunCallbacks | src/AppserverIo/Appserver/PersistenceContainer/BeanLocator.php:82-84 | The callbacks are invoked on the bean in declaration order and nothing else changes. |
| BeanLocator.Dispatch | src/AppserverIo/Appserver/PersistenceContainer/BeanLocator.php:73-161 | The chosen policy is one the descriptor implements and comes first in check order; there is none exactly when it implements none. |
| BeanLocator.StatefulCheckedFirst | src/AppserverIo/Appserver/PersistenceContainer/BeanLocator.php:73 | A descriptor that is stateful gets the stateful policy, whatever else it implements. |
| BeanLocator.NoDescriptorCreatesPlainInstance | src/AppserverIo/Appserver/PersistenceContainer/BeanLocator.php:68-181 | Without a descriptor of a known kind, the result is one new instance; no callback runs and no store changes. |
| BeanLocator.StatefulHitReturnsStored | src/AppserverIo/Appserver/PersistenceContainer/BeanLocator.php:75-88 | A stored stateful bean is returned itself, re-injected, then its post-detach callbacks run in order. Nothing is constructed or stored. |
| BeanLocator.StatefulMissConstructsOnce | src/AppserverIo/Appserver/PersistenceContainer/BeanLocator.php:90-99 | A stateful miss constructs exactly one instance and runs its post-construct callbacks. It does not store it, and no post-detach callback runs. |
| BeanLocator.StatefulMissIsNotRemembered | src/AppserverIo/Appserver/PersistenceContainer/BeanLocator.php:90-99 | Two stateful lookups in a row on an empty store give two different instances. |
| BeanLocator.UnstackableSingletonFails | src/AppserverIo/Appserver/PersistenceContainer/BeanLocator.php:120-123 | A singleton miss whose class does not extend `\Stackable` fails and leaves the state unchanged. |
| BeanLocator.SingletonMissStoresBeforeCallbacks | src/AppserverIo/Appserver/PersistenceContainer/BeanLocator.php:125-137 | A singleton miss constructs one instance through `newSingletonSessionBeanInstance` and stores it under the class name before the post-construct callbacks run. |
| BeanLocator.SingletonCreatedOnce | src/AppserverIo/Appserver/PersistenceContainer/BeanLocator.php:103-138 | After a singleton miss, the next lookup returns the same instance through the hit path, with nothing constructed. |
| BeanLocator.StatelessIgnoresStore | src/AppserverIo/Appserver/PersistenceContainer/BeanLocator.php:141-152 | A stateless lookup always constructs and calls back, and its result does not depend on the stores. |
| BeanLocator.MessageDrivenNoCallbacks | src/AppserverIo/Appserver/PersistenceContainer/BeanLocator.php:155-158 | A message-driven bean is a new instance with no callback. |
| BeanLocator.PlainBeanFactory | src/AppserverIo/Appserver/PersistenceContainer/BeanLocator.php:163-176 | A factory bean is the factory method's product. The factory is a new instance when its class name is non-empty in PHP's sense, else the named bean; without a factory the bean is a new instance of the descriptor's class. |
| BeanLocator.LookupStoreEffect | src/AppserverIo/Appserver/PersistenceContainer/BeanLocator.php:60-182 | A lookup never changes the stateful store. It constructs at most one instance, and changes the singleton store only by storing that new instance. |
| BeanLocator.LookupKeepsStoreOlder | src/AppserverIo/Appserver/PersistenceContainer/BeanLocator.php:60-182 | Every stored bean stays older than the instance counter, and a created bean is new. |
| BeanManager.Construct | src/AppserverIo/Appserver/PersistenceContainer/BeanLocator.php:91 | `newInstance` yields the next numbered instance and records its construction. |
| BeanManager.ConstructSingleton | src/AppserverIo/Appserver/PersistenceContainer/BeanLocator.php:126 | `newSingletonSessionBeanInstance` yields the next numbered instance and records a singleton construction, not a plain one. |
| BeanManager.BeanManager.NewInstance | src/AppserverIo/Appserver/PersistenceContainer/BeanLocator.php:91 | The next numbered instance; only the counter and the trace change. |
| BeanManager.BeanManager.NewSingletonInstance | src/AppserverIo/Appserver/PersistenceContainer/BeanLocator.php:126 | The next numbered instance, recorded as a singleton construction; the stores are unchanged. |
| BeanManager.BeanManager.InjectDependencies | src/AppserverIo/Appserver/PersistenceContainer/BeanLocator.php:78-79 | Records the injection for the session; nothing else changes. |
| BeanManager.BeanManager.RegisterSingleton | src/AppserverIo/Appserver/PersistenceContainer/BeanLocator.php:129 | The singleton is stored under its class name, and only that entry changes. |
| BeanManager.BeanManager.RemoveStateful | src/AppserverIo/Appserver/PersistenceContainer/GarbageCollectors/StandardGarbageCollector.php:145 | The entry leaves the stateful store and its bean is passed to the destroy hook. |
| BeanManager.Invocations | src/AppserverIo/Appserver/PersistenceContainer/BeanLocator.php:82-84 | One invocation event per callback, in order. |
| BeanManager.Lifetimes | src/AppserverIo/Appserver/PersistenceContainer/GarbageCollectors/StandardGarbageCollector.php:135 | The lifetime map has the store's keys and each entry's lifetime. |
| GarbageCollector.GetDefaultTimeout | src/AppserverIo/Appserver/PersistenceContainer/GarbageCollectors/StandardGarbageCollector.php:175-178 | The default timeout is 5 000 000 microseconds. |
| GarbageCollector.CollectGarbage | src/AppserverIo/Appserver/PersistenceContainer/GarbageCollectors/StandardGarbageCollector.php:120-168 | The store becomes the entries whose lifetime is not before the sampled time. The counter is the number kept. Each expired entry is destroyed once with its bean, and the singletons and instance counter are unchanged. |
| GarbageCollector.Expired | src/AppserverIo/Appserver/PersistenceContainer/GarbageCollectors/StandardGarbageCollector.php:143 | An identifier has expired exactly when its lifetime is strictly before the time. |
| GarbageCollector.Sweep | src/AppserverIo/Appserver/PersistenceContainer/GarbageCollectors/StandardGarbageCollector.php:141-156 | An entry survives exactly when its lifetime is not before the time, and it keeps its value. |
| GarbageCollector.SweepRemovesExactlyExpired | src/AppserverIo/Appserver/PersistenceContainer/GarbageCollectors/StandardGarbageCollector.php:141-156 | The kept keys are the store's keys minus the expired ones. |
| GarbageCollector.LifetimeEqualToNowSurvives | src/AppserverIo/Appserver/PersistenceContainer/GarbageCollectors/StandardGarbageCollector.php:143 | An entry whose lifetime equals the sampled time is kept (strict comparison). |
| GarbageCollector.SweepTwice | src/AppserverIo/Appserver/PersistenceContainer/GarbageCollectors/StandardGarbageCollector.php:141-156 | Two sweeps equal one sweep at the later time. |
| GarbageCollector.KeptPlusRemovedIsAll | src/AppserverIo/Appserver/PersistenceContainer/GarbageCollectors/StandardGarbageCollector.php:141-156 | Kept count plus expired count is the store's size. |
| GarbageCollector.DestroyCountIsExpiredCount | src/AppserverIo/Appserver/PersistenceContainer/GarbageCollectors/StandardGarbageCollector.php:145 | The destroy hook runs exactly as many times as there are expired entries. |
| GarbageCollector.VisitStep | src/AppserverIo/Appserver/PersistenceContainer/GarbageCollectors/StandardGarbageCollector.php:141-156 | One visit removes and destroys an expired entry, or counts a live one. |
| GarbageCollector.SweepComplete | src/AppserverIo/Appserver/PersistenceContainer/GarbageCollectors/StandardGarbageCollector.php:141-156 | Once all entries are visited, the store is the swept one and the destroy events cover exactly the expired entries. |
| GarbageCollector.ExpiredBeanIsRecreated | src/AppserverIo/Appserver/PersistenceContainer/GarbageCollectors/StandardGarbageCollector.php:143-145 | After a sweep, looking up an expired stateful bean constructs a new instance. |
| ExtensionInjector.InitExtensionType | src/AppserverIo/Appserver/Core/Api/ExtensionInjectorParameterTrait.php:57-77 | Initialisation succeeds exactly when a class is found. It yields that class with the first three cleaned parameters (null when missing), or "Unknown injector class". |
| ExtensionInjector.InjectorClass | src/AppserverIo/Appserver/Core/Api/ExtensionInjectorParameterTrait.php:61-64 | The whole extension type if it is a known class, otherwise the text before the first `(` if that is a known class, otherwise the error naming the last candidate. |
| ExtensionInjector.ParameterString | src/AppserverIo/Appserver/Core/Api/ExtensionInjectorParameterTrait.php:68 | Group 1 of `\((.+)\)`: present exactly when the pattern matches, and the leftmost, longest match. |
| ExtensionInjector.Parameters | src/AppserverIo/Appserver/Core/Api/ExtensionInjectorParameterTrait.php:71-72 | The parts joined by `,` are the parameter string without spaces and quotes. There is at least one part, and none contains a space, a quote or a comma. |
| ExtensionInjector.At | src/AppserverIo/Appserver/Core/Api/ExtensionInjectorParameterTrait.php:75 | A list element, or null past the end. |
| ExtensionInjector.EmptyExtensionTypeFails | src/AppserverIo/Appserver/Core/Api/ExtensionInjectorParameterTrait.php:61-64 | An empty extension type never yields an injector. |
| ExtensionInjector.ParseWritten | src/AppserverIo/Appserver/Core/Api/ExtensionInjectorParameterTrait.php:57-77 | For `Class(body)` whose body, stripped of spaces and quotes, is parameters joined by `,`, parsing gives the class and exactly the first three parameters. |
| ExtensionInjector.QuotedParameters | src/AppserverIo/Appserver/Core/Api/ExtensionInjectorParameterTrait.php:57-77 | `Cls('a', b, c)` parses to the class with parameters a, b and c. |
| ExtensionInjector.ParseFormatted | src/AppserverIo/Appserver/Core/Api/ExtensionInjectorParameterTrait.php:57-77 | Writing `Class(p0,p1,p2,...)` with clean parameters and parsing it gives back the class and the first three parameters. |
| ExtensionInjector.ExtensionInjectorNode.HasInjector | src/AppserverIo/Appserver/Core/Api/ExtensionInjectorParameterTrait.php:97-100 | True exactly when the extension type is neither null, "" nor "0". |
| ExtensionInjector.ExtensionInjectorNode.GetInjector | src/AppserverIo/Appserver/Core/Api/ExtensionInjectorParameterTrait.php:84-90 | It parses only while no injector is set, and keeps the injector on success. An existing injector is returned unchanged. |
| ExtensionInjector.GetInjectorTwice | src/AppserverIo/Appserver/Core/Api/ExtensionInjectorParameterTrait.php:84-90 | Once an injector was obtained, the next call returns the same one. |
| PhpStrings.StrStrBefore | src/AppserverIo/Appserver/Core/Api/ExtensionInjectorParameterTrait.php:62 | The prefix before the first occurrence of the character, or false when it does not occur. |
| PhpStrings.StripSpacesAndQuotes | src/AppserverIo/Appserver/Core/Api/ExtensionInjectorParameterTrait.php:71 | Exactly the characters other than space and quote remain. |
| PhpStrings.StripAppend | src/AppserverIo/Appserver/Core/Api/ExtensionInjectorParameterTrait.php:71 | Stripping a concatenation is concatenating the stripped parts, so the kept characters stay in order. |
| PhpStrings.StripOne | src/AppserverIo/Appserver/Core/Api/ExtensionInjectorParameterTrait.php:71 | One character is dropped exactly when it is a space or a single quote. |
| PhpStrings.Explode | src/AppserverIo/Appserver/Core/Api/ExtensionInjectorParameterTrait.php:72 | Never empty; the parts contain no separator, and joined back they give the input. |
| PhpStrings.ExplodeImplode | src/AppserverIo/Appserver/Core/Api/ExtensionInjectorParameterTrait.php:72 | Splitting a join of separator-free parts gives the parts back. |
| PhpStrings.Basename | src/AppserverIo/Appserver/Core/Api/DeploymentService.php:89 | The result contains no slash. |
| PhpStrings.BasenameOfChild | src/AppserverIo/Appserver/Core/Api/DeploymentService.php:89 | The basename of `dir/name`, with any trailing slashes, is name. |
| Glob.LiteralMatchesItselfOnly | src/AppserverIo/Appserver/Core/Api/Node/ContainerNode.php:302 | A pattern without wildcards matches exactly the identical name. |
| Glob.StarMatchesAll | src/AppserverIo/Appserver/Core/Api/Node/ContainerNode.php:302 | The pattern `*` matches every name. |
| Glob.PrefixStar | src/AppserverIo/Appserver/Core/Api/Node/ContainerNode.php:302 | `p*` matches exactly the names that start with p. |
| PhpArray.Put | src/AppserverIo/Appserver/Core/Api/Node/ContainerNode.php:274 | An existing key keeps its position and takes the value; a new key is appended. Keys stay distinct. |
| PhpArray.PutGet | src/AppserverIo/Appserver/Core/Api/Node/ContainerNode.php:274 | After the assignment the key reads the new value and every other key reads what it read before. |
| PhpArray.Build | src/AppserverIo/Appserver/Core/Api/Node/ContainerNode.php:238-240 | Filling an array from pairs: every key reads the value of its last pair, and the keys are the pairs' keys. |
| PhpArray.BuildBy | src/AppserverIo/Appserver/Core/Api/Node/ContainerNode.php:238-240 | The keys are the items' keys, and each key reads the value of the last item with that key. |
| PhpArray.FirstWhere | src/AppserverIo/Appserver/Core/Api/Node/ContainerNode.php:258-262 | The first index satisfying the test, or none exactly when no element does. |
| ContainerNode.ContainerNode.constructor | src/AppserverIo/Appserver/Core/Api/Node/ContainerNode.php:85 | Provisioning defaults to true, and servers are keyed by primary key. |
| ContainerNode.ServersByName | src/AppserverIo/Appserver/Core/Api/Node/ContainerNode.php:230-244 | `getServersAsArray`: keyed by server name, and of two servers with one name the later wins. |
| ContainerNode.ByPrimaryKey | src/AppserverIo/Appserver/Core/Api/Node/ContainerNode.php:272-275 | Each server sits under its own primary key, and the keys are exactly the primary keys. |
| ContainerNode.ContainerNode.GetServer | src/AppserverIo/Appserver/Core/Api/Node/ContainerNode.php:253-263 | The first server whose name is identical, or null exactly when no server has that name. |
| ContainerNode.ContainerNode.AttachServer | src/AppserverIo/Appserver/Core/Api/Node/ContainerNode.php:272-275 | The server is stored under its primary key, and the array stays keyed by primary key. |
| ContainerNode.ContainerNode.MergeStep | src/AppserverIo/Appserver/Core/Api/Node/ContainerNode.php:302-306 | One comparison changes only the own server at that index: it merges it when the other's name matches, and re-attaches it in place otherwise. |
| ContainerNode.ContainerNode.MergeServerAt | src/AppserverIo/Appserver/Core/Api/Node/ContainerNode.php:300-307 | The inner loop merges the own server with every matching incoming server, in order. |
| ContainerNode.ContainerNode.Merge | src/AppserverIo/Appserver/Core/Api/Node/ContainerNode.php:294-309 | The servers become `MergedServers` of the old servers and the other container's servers, and stay keyed by primary key. |
| ContainerNode.MergeServer | src/AppserverIo/Appserver/Core/Api/Node/ContainerNode.php:303 | Merging keeps the server's name and primary key and records the merged-in server. |
| ContainerNode.MergeIfMatching | src/AppserverIo/Appserver/Core/Api/Node/ContainerNode.php:302-306 | The other server is recorded exactly when its name, as a pattern, matches the own name. |
| ContainerNode.MergedServers | src/AppserverIo/Appserver/Core/Api/Node/ContainerNode.php:294-309 | Same length, same keys in the same order, and each server merged with the incoming servers. |
| ContainerNode.MergeMatchingEffect | src/AppserverIo/Appserver/Core/Api/Node/ContainerNode.php:300-307 | Merging keeps name and primary key and adds exactly the matching incoming servers, in order. |
| ContainerNode.MergeAttachesNothingNew | src/AppserverIo/Appserver/Core/Api/Node/ContainerNode.php:294-309 | After `merge` the keys are the old keys. No incoming server becomes an entry, and every server gains exactly its matches. |
| ContainerNode.AttachInPlace | src/AppserverIo/Appserver/Core/Api/Node/ContainerNode.php:305 | Re-attaching a server under its own primary key leaves the servers unchanged. |
| AuthenticationsNode.GetAuthentication | src/AppserverIo/Appserver/Core/Api/Node/AuthenticationsNodeTrait.php:64-78 | The first authentication with the identical URI, or false exactly when none has it. |
| AuthenticationsNode.GetAuthenticationsAsArray | src/AppserverIo/Appserver/Core/Api/Node/AuthenticationsNodeTrait.php:85-99 | Keyed by URI with the authentication's parameters; the later of two with one URI wins. |
| AuthenticationsNode.FoundIffKey | src/AppserverIo/Appserver/Core/Api/Node/AuthenticationsNodeTrait.php:64-99 | The search finds a URI exactly when the array has it as a key. |
| AuthenticationsNode.UniqueUriAgrees | src/AppserverIo/Appserver/Core/Api/Node/AuthenticationsNodeTrait.php:64-99 | For a URI used once, the search and the array agree on its authentication. |
| AuthenticationsNode.DefaultIsEmpty | src/AppserverIo/Appserver/Core/Api/Node/AuthenticationsNodeTrait.php:44 | A node with the default empty list finds nothing and yields an empty array. |
| JobsNode.JobsNode.constructor | src/AppserverIo/Appserver/Core/Api/Node/JobsNodeTrait.php:45 | A fresh node has no jobs. |
| JobsNode.JobsNode.SetJobs | src/AppserverIo/Appserver/Core/Api/Node/JobsNodeTrait.php:54-57 | The list is replaced entirely. |
| JobsNode.FindJob | src/AppserverIo/Appserver/Core/Api/Node/JobsNodeTrait.php:76-83 | `getJob`: the first job with the identical name, or null exactly when none has it. |
| JobsNode.SetThenGet | src/AppserverIo/Appserver/Core/Api/Node/JobsNodeTrait.php:54-83 | After `setJobs(j)`, `getJobs` returns j and `getJob` searches j. |
| JobsNode.FirstNamedJobIsFound | src/AppserverIo/Appserver/Core/Api/Node/JobsNodeTrait.php:76-83 | A job whose name no earlier job shares is the one `getJob` finds. |
| AbstractDeployment.AbstractDeployment.InjectContainer | src/AppserverIo/Appserver/Core/AbstractDeployment.php:73-76 | The container is set and nothing else changes. |
| AbstractDeployment.InjectThenGet | src/AppserverIo/Appserver/Core/AbstractDeployment.php:73-86 | `getContainer` after `injectContainer(c)` returns c. |
| AbstractDeployment.AbstractDeployment.NewService | src/AppserverIo/Appserver/Core/AbstractDeployment.php:158-161 | A new service of the named class, next in creation order. |
| AbstractDeployment.AbstractDeployment.GetDeploymentService | src/AppserverIo/Appserver/Core/AbstractDeployment.php:93-99 | Creates the service only while the field is null, then returns the field; the other fields are unchanged. |
| AbstractDeployment.AbstractDeployment.GetConfigurationService | src/AppserverIo/Appserver/Core/AbstractDeployment.php:106-112 | Creates the service only while the field is null, then returns the field; the other fields are unchanged. |
| AbstractDeployment.AbstractDeployment.GetDatasourceService | src/AppserverIo/Appserver/Core/AbstractDeployment.php:119-125 | Creates the service only while the field is null, then returns the field; the other fields are unchanged. |
| AbstractDeployment.EachServiceCreatedOnce | src/AppserverIo/Appserver/Core/AbstractDeployment.php:93-125 | Asking twice for each service returns the same services, and creates at most three in all. |
| DeploymentService.FindAll | src/AppserverIo/Appserver/Core/Api/DeploymentService.php:51-59 | Keyed by the containers' deployment UUIDs; each UUID reads the deployment of the last container with it. |
| DeploymentService.Load | src/AppserverIo/Appserver/Core/Api/DeploymentService.php:69-75 | Null exactly when no container has the UUID; otherwise the deployment of the last container with that UUID. |
| DeploymentService.PrepareSystemProperties | src/AppserverIo/Appserver/Core/Api/DeploymentService.php:182-187 | The webapp property is set to the path, and the webapp-name property to its basename. |
| DeploymentService.PrepareForChildDirectory | src/AppserverIo/Appserver/Core/Api/DeploymentService.php:182-187 | For a path `dir/name`, the webapp-name property is name. |
| DeploymentService.MergeContextFiles | src/AppserverIo/Appserver/Core/Api/DeploymentService.php:118-141 | Every readable context file is merged in order and every unreadable one's error is reported; the later files are still processed. |
| DeploymentService.LoadContextInstance | src/AppserverIo/Appserver/Core/Api/DeploymentService.php:85-149 | The context is named by the path's basename and carries the path. It merges the base context, the host's same-named context and the readable files, in that order, and sets the two properties. |
| DeploymentService.EveryFileHandled | src/AppserverIo/Appserver/Core/Api/DeploymentService.php:210-250 | Every file is either used or reported, never both. |
| DeploymentService.MergeAgreesWithNode | src/AppserverIo/Appserver/Core/Api/DeploymentService.php:228-229 | `merge` on a container node gives the servers of `MergeContainer`, the value form the deployment service uses. |
| DeploymentService.FirstNamed | src/AppserverIo/Appserver/Core/Api/DeploymentService.php:228 | The first container with the name, or none exactly when no container has it. |
| DeploymentService.MergeOrAttachEffect | src/AppserverIo/Appserver/Core/Api/DeploymentService.php:226-234 | A known name merges into that one container in place; an unknown one is appended. The names afterwards are the old names plus the loaded one. |
| DeploymentService.MergeAllNames | src/AppserverIo/Appserver/Core/Api/DeploymentService.php:224-235 | After a containers file is merged, the system has its old names and the file's names. |
| DeploymentService.MergeAllKeepsOwn | src/AppserverIo/Appserver/Core/Api/DeploymentService.php:224-235 | No system container is removed, renamed or given another deployment. |
| DeploymentService.MergeAllAppend | src/AppserverIo/Appserver/Core/Api/DeploymentService.php:224-235 | Merging a list in two parts equals merging the parts one after the other. |
| DeploymentService.BadFilesSkipped | src/AppserverIo/Appserver/Core/Api/DeploymentService.php:210-250 | Unreadable files change nothing: the result is that of merging the readable files' containers in order. |
| DeploymentService.MergeContainers | src/AppserverIo/Appserver/Core/Api/DeploymentService.php:224-235 | The system's containers become `MergeAll` of the old ones and the loaded ones. |
| DeploymentService.LoadContainersFile | src/AppserverIo/Appserver/Core/Api/DeploymentService.php:212-235 | A readable file's containers are merged or attached. |
| DeploymentService.LoadContainerInstance | src/AppserverIo/Appserver/Core/Api/DeploymentService.php:199-251 | The containers become `MergeFiles` of the old ones and the files, and the errors are those of the unreadable files in order. |
| DeploymentService.LoadContainerInstances | src/AppserverIo/Appserver/Core/Api/DeploymentService.php:259-284 | When application configuration is strictly false, nothing changes. Otherwise every application's files are merged in turn. |
| DeploymentService.SystemConfiguration.AttachContainer | src/AppserverIo/Appserver/Core/Api/DeploymentService.php:231 | The container is added after the others. |
| DeploymentService.SystemConfiguration.MergeContainerAt | src/AppserverIo/Appserver/Core/Api/DeploymentService.php:228-229 | Only the container at that position is changed, to its merge with the loaded one. |

## Left out

- Time: `time()` and the daemon loop that sleeps between sweeps (`run`) are not modelled. The sampled time is a parameter of `CollectGarbage`, and the timeout is only a constant.
- Iteration order of the lifetime map: the sweep visits identifiers in an unspecified order. What the sweep achieves does not depend on that order; the order of the destroy events does.
- The lifetime-map storage class, logging and the profile logger: the sweep's log messages are left out.
- What dependency injection, callbacks and factory methods do inside an instance: they are recorded as trace events by name.
- The object manager, the naming directory and `is_subclass_of` are parameters: the descriptors map, `Service` beans and the `stackable` set.
- `newSingletonSessionBeanInstance` is not part of this model beyond its result: like `newInstance`, it yields the next numbered instance, recorded by its own trace event.
- Concurrency: the bean manager is used by one thread at a time in this model.
- `ServerNode::merge` and `ContextNode::merge` are not part of this model. A merge records the merged-in node in a list.
- `fnmatch` bracket expressions (`[...]`) and flags are not modelled; a `[` is an ordinary character here.
- `ExtensionInjector.ParameterString`: the dot of `\((.+)\)` does not match a newline in PCRE, but here it matches every character.
- The injector's own `init()` and `getInjection` are not modelled.
- XML validation and loading (`validateFile`, `initFromFile`) and the glob of configuration files are not modelled. Each file is given as an already-read list of containers or contexts, or as its error message. Logging the error becomes returning it.
- `replaceProperties` (property substitution inside nodes), the environment name (`setEnvironmentName`) and the base `context.xml` path are not modelled. The base context is a parameter.
- The values of the system property keys are not part of this model; the keys are a datatype.
- `SystemNode::getContainer` and `SystemNode::attachContainer` are not part of this model. They are assumed to find the first container with the name and to append.
- `loadContainerInstances` finds applications by globbing each container's application base. That glob is not modelled: the applications are given as a list.
- `LoadContainerInstances`: the errors it returns in the non-early case are not stated in its contract.
- `ContainerNode.ContainerNode.Merge`: the other container's servers are read once, before the loop. When a container is merged with itself, PHP would read the partly merged servers again for each own server.
- `ContainerNode.ContainerNode.constructor`: the configuration mapper that fills `$servers` from XML is not part of this model. It is assumed to key each server by its primary key, as `attachServer` does. `AttachInPlace`, which shows why `merge` re-attaching a server changes nothing, depends on this.
- `DeploymentService.ContainerConfig`: the deployment service works on containers as values (name, deployment, servers). They are tied to the `ContainerNode.ContainerNode` class only through `MergedServers` and `MergeAgreesWithNode`.
- `ContainerNode.ContainerNode.AttachServer`: stated by `PhpArray.Put`, whose contract and the `PutGet` lemma give its meaning.
- `AbstractDeployment`: `getInitialContext` and `newInstance` are not modelled, and services are values identified by class and creation order.
