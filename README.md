# Tracer factory, Redis span conversion and the no-op tag builder

This project is a Dafny model of three small pieces of a distributed-tracing SDK for .NET (OpenTelemetry).

- **The tracer factory** (`trace.dfy`, `resources.dfy`) is created from a configuration. The configuration holds an exporter, a processor built from that exporter, and collectors built from tracers. `Create` with a null configuration callback throws an argument error.
  - `GetTracer(name, version)` normalises its arguments into a registry key and caches one tracer per key. A null or empty name selects the single anonymous tracer, whatever the version.
  - Each tracer carries a library resource derived from its key. The anonymous tracer has no labels. A named tracer has a `name` label, plus a `version` label when a version was given.
  - Spans started by a tracer are recording, because the default sampler always samples. Ending a span once notifies the processor. The forwarding processor exports the span as a one-element batch.
  - Disposing the factory disposes every collector and then the processor.
- **The Redis collector's converter** (`redis.dfy`) maps one profiled Redis command to a span. The command text becomes the span name and the `db.statement` attribute. The creation time becomes the start timestamp. `db.type` is `"redis"`. The rendered command flags become `redis.flags`.
- **The no-op tag-context builder** (`tags.dfy`) has a single instance. `Put` and `Remove` throw on a null argument and otherwise return the same builder. `Build` and `BuildScoped` always return the no-op context and the no-op scope.

The implementations of `TracerFactory` and of the Redis converter are not modelled; their behaviour is taken from the repository's tests, so the model cites those tests.

Each collector's tracer is named and versioned after the collector (`test/OpenTelemetry.Tests/Impl/Trace/TracerFactoryTest.cs:110-116`); `CollectorSpec` carries that name and version.

C# `null` is modelled as `Option.None`. Thrown exceptions are modelled as `Result.Failure`.

## Model

| member | source | states |
|---|---|---|
| `Resources.TracerKeyOf` | test/OpenTelemetry.Tests/Impl/Trace/TracerFactoryTest.cs:160-180 | The key is the anonymous key iff the name is null or empty. Otherwise the key keeps the non-empty name and the version exactly as passed. |
| `Resources.SameTracerKeyIff` | test/OpenTelemetry.Tests/Impl/Trace/TracerFactoryTest.cs:164-179 | Two argument pairs give the same key iff both names are null or empty, or the names are equal and non-empty and the versions are equal. A null version differs from every given version. |
| `Resources.LibraryResource` | test/OpenTelemetry.Tests/Impl/Trace/TracerFactoryTest.cs:124-158 | The anonymous key gets the empty resource. A named key gets a `name` label holding its name. There is a `version` label iff a version was given, and it holds that version. No other labels exist. |
| `Resources.LibraryResourceSize` | test/OpenTelemetry.Tests/Impl/Trace/TracerFactoryTest.cs:98-116 | The resource has 0 labels when anonymous, 1 when named without a version, and 2 when named and versioned. |
| `Resources.ResourceOfTracerArguments` | test/OpenTelemetry.Tests/Impl/Trace/TracerFactoryTest.cs:125-157 | For the arguments of `GetTracer`: a `name` label exists iff the name is neither null nor empty. A `version` label exists iff the name is also present and a version was passed. Each label holds the argument, and the label count is 0, 1 or 2 accordingly. |
| `Trace.SpanExporter.constructor` | test/OpenTelemetry.Tests/Impl/Trace/TracerFactoryTest.cs:61-68 | A new exporter has recorded no export calls, so the call count starts at 0. |
| `Trace.SpanExporter.Export` | test/OpenTelemetry.Tests/Impl/Trace/TracerFactoryTest.cs:63-68 | Each export call appends exactly its batch to the record of calls. |
| `Trace.Forwarded` | test/OpenTelemetry.Tests/Impl/Trace/TracerFactoryTest.cs:202-205 | A forwarding processor exports exactly the one-element batch `[span]`. An inert processor exports nothing. |
| `Trace.SpanProcessor.constructor` | test/OpenTelemetry.Tests/Impl/Trace/TracerFactoryTest.cs:187-191 | The processor keeps the exporter it was given and starts out undisposed. |
| `Trace.SpanProcessor.OnEnd` | test/OpenTelemetry.Tests/Impl/Trace/TracerFactoryTest.cs:202-205 | Ending a span adds exactly the forwarded batches to the exporter's record. Nothing else changes. |
| `Trace.SpanProcessor.Dispose` | test/OpenTelemetry.Tests/Impl/Trace/TracerFactoryTest.cs:193-196 | The processor is disposed afterwards. |
| `Trace.Span.End` | test/OpenTelemetry.Tests/Impl/Trace/TracerFactoryTest.cs:92-97 | The span is ended afterwards. The first `End` produces exactly one notification, and a repeated `End` exports nothing. |
| `Trace.Tracer.StartSpan` | test/OpenTelemetry.Tests/Impl/Trace/TracerFactoryTest.cs:49-55 | Returns a new span with the given name that is not yet ended. The span is recording and carries this tracer's resource and processor. |
| `Trace.Collector.constructor` | test/OpenTelemetry.Tests/Impl/Trace/TracerFactoryTest.cs:214-221 | The collector keeps the tracer it was given and starts out undisposed. |
| `Trace.Collector.Collect` | test/OpenTelemetry.Tests/Impl/Trace/TracerFactoryTest.cs:223-228 | Returns a new ended span named "foo" with the collector tracer's resource. It adds exactly the forwarded batch for that span to the exporter. |
| `Trace.Collector.Dispose` | test/OpenTelemetry.Tests/Impl/Trace/TracerFactoryTest.cs:230-233 | The collector is disposed afterwards. |
| `Trace.CollectorKey` | test/OpenTelemetry.Tests/Impl/Trace/TracerFactoryTest.cs:110-116 | A collector with a non-empty name gets a tracer keyed by its name and its version. |
| `Trace.TracerFactory.constructor` | test/OpenTelemetry.Tests/Impl/Trace/TracerFactoryTest.cs:73-89 | The factory uses the configured exporter, or a fresh empty one when none is set. Its processor is new, of the configured kind and not disposed. It holds one fresh, undisposed collector per configured collector, in order, each holding the cached tracer for that collector's key. The cache holds exactly the collectors' keys. The cache invariant holds. |
| `Trace.TracerFactory.AddCollectors` | test/OpenTelemetry.Tests/Impl/Trace/TracerFactoryTest.cs:80-89 | Registering a list of collector specs appends one fresh, undisposed collector per spec, in order, and keeps the existing ones. Afterwards the collectors and the cache correspond to all specs registered so far. The cache invariant is kept. |
| `Trace.TracerFactory.AddCollector` | test/OpenTelemetry.Tests/Impl/Trace/TracerFactoryTest.cs:80-84 | Registering one collector spec appends exactly one fresh, undisposed collector. Its tracer is the cached tracer for the spec's key, and the cache gains that key. The cache invariant is kept. |
| `Trace.CollectorKeysMembers` | test/OpenTelemetry.Tests/Impl/Trace/TracerFactoryTest.cs:80-89 | A key is among the registered collectors' keys iff some collector spec maps to it. |
| `Trace.TracerFactory.GetTracer` | test/OpenTelemetry.Tests/Impl/Trace/TracerFactoryTest.cs:160-180 | Returns the tracer for the normalised key, with that key's resource. A cached key returns the cached tracer and leaves the cache unchanged. Otherwise a fresh tracer is created and inserted, and nothing else changes. The cache invariant is kept. |
| `Trace.TracerFactory.Dispose` | test/OpenTelemetry.Tests/Impl/Trace/TracerFactoryTest.cs:118-121 | Every collector and the processor are disposed afterwards. |
| `Trace.Create` | test/OpenTelemetry.Tests/Impl/Trace/TracerFactoryTest.cs:32-36 | Fails with an argument error iff the configuration callback is null. Otherwise it returns a new factory built from the configuration, with the same guarantees as the constructor: the configured or a fresh exporter, a new undisposed processor of the configured kind, one fresh undisposed collector per spec, and a cache holding exactly the collectors' keys. |
| `TraceScenarios.TracerIdentity` | test/OpenTelemetry.Tests/Impl/Trace/TracerFactoryTest.cs:160-180 | On any valid factory, two `GetTracer` calls return the same tracer iff their arguments normalise to the same key. |
| `TraceScenarios.NullConfigurationRejected` | test/OpenTelemetry.Tests/Impl/Trace/TracerFactoryTest.cs:32-36 | `Create(null)` yields the argument-null error. |
| `TraceScenarios.DefaultConfigurationSpan` | test/OpenTelemetry.Tests/Impl/Trace/TracerFactoryTest.cs:38-56 | With the empty configuration, a span from the tracer for "" is recording and its resource is the empty resource. |
| `TraceScenarios.TracerCacheScenario` | test/OpenTelemetry.Tests/Impl/Trace/TracerFactoryTest.cs:160-180 | The same name and version give the same tracer. A different version, a missing version or a different name give another tracer. "", null, and null with a version all give one anonymous tracer, distinct from the named one. |
| `TraceScenarios.ForwardingFactory` | test/OpenTelemetry.Tests/Impl/Trace/TracerFactoryTest.cs:70-89 | Builds a valid new factory around the given exporter with a forwarding processor. It has two fresh collectors; they and the processor are not disposed. The first one's tracer carries its library's resource and feeds the factory's processor. |
| `TraceScenarios.ForwardingExportScenario` | test/OpenTelemetry.Tests/Impl/Trace/TracerFactoryTest.cs:91-108 | With a forwarding processor, ending one span gives 1 export call, and two collections bring the count to 3. Every batch holds exactly one span. |
| `TraceScenarios.ForwardingLabelsScenario` | test/OpenTelemetry.Tests/Impl/Trace/TracerFactoryTest.cs:98-116 | The "my-app" span has exactly the label `name` = "my-app". A collector's span has exactly `name` and `version` with its library's values. |
| `TraceScenarios.ForwardingDisposeScenario` | test/OpenTelemetry.Tests/Impl/Trace/TracerFactoryTest.cs:118-121 | Before the factory's `Dispose`, neither collector nor the processor is disposed; afterwards all three are. |
| `RedisCollector.GetValue` | test/OpenTelemetry.Collector.StackExchangeRedis.Tests/Implementation/RedisProfilerEntryToSpanConverterTests.cs:68-69 | The lookup finds a value iff the span carries that attribute, and then returns the attribute's value. |
| `RedisCollector.ProfilerCommandToSpan` | test/OpenTelemetry.Collector.StackExchangeRedis.Tests/Implementation/RedisProfilerEntryToSpanConverterTests.cs:40-94 | The span's name is the command text and its start is the command's creation time. `db.type` is "redis". `db.statement` equals the span name. `redis.flags` is the rendering of the command's flags. |
| `RedisCollector.CommandRecoverable` | test/OpenTelemetry.Collector.StackExchangeRedis.Tests/Implementation/RedisProfilerEntryToSpanConverterTests.cs:40-81 | Two commands that convert to the same span have the same text, the same creation time and the same rendered flags. |
| `RedisCollector.SetCommandSpan` | test/OpenTelemetry.Collector.StackExchangeRedis.Tests/Implementation/RedisProfilerEntryToSpanConverterTests.cs:72-81 | A "SET" command created at `t` gives a span named "SET" that starts at `t`, with `db.type` "redis" and `db.statement` "SET". |
| `Tags.NoopTagContextBuilder.Put` | src/OpenTelemetry/Tags/NoopTagContextBuilder.cs:28-41 | A null key throws ArgumentNull("key"). Otherwise a null value throws ArgumentNull("value"). Success happens iff both arguments are present, and it returns the same builder. |
| `Tags.NoopTagContextBuilder.Remove` | src/OpenTelemetry/Tags/NoopTagContextBuilder.cs:43-51 | A null key throws ArgumentNull("key"). Otherwise it returns the same builder. |
| `Tags.NoopTagContextBuilder.Build` | src/OpenTelemetry/Tags/NoopTagContextBuilder.cs:53-56 | Returns the no-op tag context, never a context with tags. |
| `Tags.NoopTagContextBuilder.BuildScoped` | src/OpenTelemetry/Tags/NoopTagContextBuilder.cs:58-61 | Returns the no-op scope, never a scope that installs a context. |
| `Tags.OnlyInstance` | src/OpenTelemetry/Tags/NoopTagContextBuilder.cs:22-26 | The constant `Tags.Instance` stands for the static `Instance` field, and every builder value equals it: there is exactly one builder. |
| `Tags.ApplyAllOutcome` | src/OpenTelemetry/Tags/NoopTagContextBuilder.cs:28-51 | A fluent chain of `Put`/`Remove` calls succeeds iff no call has a null argument, and then returns the same builder. Otherwise it throws the error of the first call that has a null argument. |
| `Tags.BuildIgnoresHistory` | src/OpenTelemetry/Tags/NoopTagContextBuilder.cs:53-61 | After any chain of accepted calls on the instance, `Build` and `BuildScoped` still return the no-op context and the no-op scope. |

## Left out

- The propagation codecs (`BinaryFormat`, `TraceContextFormat`) exposed by a tracer are not modelled.
- Samplers other than the default are not modelled. Every span is recording, as with the default always-sample policy.
- Span internals beyond name, resource, recording flag and ended flag are not modelled: timestamps, attributes, events, links, status, kind and parent.
- `ShutdownAsync`, `Task` and `CancellationToken` are not modelled. The test processor's shutdown completes at once and changes nothing.
- `SpanProcessor.OnStart` is not modelled, because the test processor's `OnStart` does nothing.
- Concurrent first access to the tracer cache is not modelled. `GetTracer` is sequential.
- Collector tracers take their name and version from the collector type's name and assembly version by reflection. The model takes them as `CollectorSpec` parameters.
- The default pipeline that the factory builds when nothing is configured is not modelled. With no processor configured, the processor is inert and exports nothing. With no exporter configured, the factory holds a fresh exporter of its own.
- Merging a tracer's library labels into a global base resource is not modelled. In these tests the base resource is empty.
- `Trace.TracerFactory.Dispose`: the contract says that every collector and the processor end up disposed. The order (collectors first, then the processor) appears only in its body. Disposing the exporter is not modelled, since the test processor's `Dispose` does not touch it.
- `RedisCollector.ProfilerCommandToSpan`: only the span fields and attributes the tests check are modelled. Not modelled are the parent span, the span kind, other attributes, and a null command text (the command text is a plain string here, while the tests' mocks leave it null where they do not set it).
- The `.NET` enum `ToString` rendering of Redis `CommandFlags` is a parameter of the conversion and is not defined here.
- `DateTime` and `DateTimeOffset` values and their time-zone conversion are modelled as opaque integers.
- `AzureClientsCollector` is not modelled. It only subscribes a diagnostic listener from an external library and disposes the subscription.
