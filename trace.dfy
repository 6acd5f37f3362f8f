/**
 * The tracer factory and the pipeline it owns: an exporter, one processor
 * built from it, the tracers it hands out (one per normalised key) and the
 * collectors it builds from tracers. Ending a span notifies the processor;
 * the forwarding processor exports the span as a one-element batch.
 * Disposing the factory disposes every collector, then the processor.
 */
module Trace {
  import opened Wrappers
  import opened Resources

  /** The argument error thrown by TracerFactory.Create on a null configuration callback. */
  datatype ArgumentError = ArgumentNullError

  /** An exporter that keeps every batch it is handed; the number of export calls is |batches|. */
  class SpanExporter {
    var batches: seq<seq<Span>>

    constructor ()
      ensures batches == []
    {
      batches := [];
    }

    method Export(batch: seq<Span>)
      modifies this
      ensures batches == old(batches) + [batch]
    {
      batches := batches + [batch];
    }
  }

  /**
   * Forwarding: on end, export the span as a one-element batch.
   * Inert: do nothing on end (no processor was configured).
   */
  datatype ProcessorKind = Forwarding | Inert

  /** The batches a processor of the given kind exports when a span ends. */
  function Forwarded(kind: ProcessorKind, span: Span): (batches: seq<seq<Span>>)
    ensures kind == Forwarding ==> batches == [[span]]
    ensures kind == Inert ==> batches == []
  {
    if kind == Forwarding then [[span]] else []
  }

  class SpanProcessor {
    const kind: ProcessorKind
    const exporter: SpanExporter
    var isDisposed: bool

    constructor (kind: ProcessorKind, exporter: SpanExporter)
      ensures this.kind == kind && this.exporter == exporter && !isDisposed
    {
      this.kind := kind;
      this.exporter := exporter;
      isDisposed := false;
    }

    /** Exports the ended span alone in a batch when forwarding; nothing else changes. */
    method OnEnd(span: Span)
      modifies exporter
      ensures exporter.batches == old(exporter.batches) + Forwarded(kind, span)
    {
      if kind == Forwarding {
        exporter.Export([span]);
      }
    }

    method Dispose()
      modifies this
      ensures isDisposed
    {
      isDisposed := true;
    }
  }

  class Span {
    const name: string
    /** Fixed at start by the sampler; the default sampler always samples. */
    const isRecordingEvents: bool
    const libraryResource: Resource
    const processor: SpanProcessor
    var hasEnded: bool

    constructor (name: string, libraryResource: Resource, processor: SpanProcessor)
      ensures this.name == name && this.libraryResource == libraryResource && this.processor == processor
      ensures isRecordingEvents && !hasEnded
    {
      this.name := name;
      this.isRecordingEvents := true;
      this.libraryResource := libraryResource;
      this.processor := processor;
      hasEnded := false;
    }

    /** The first End notifies the processor once; a later End is a no-op. */
    method End()
      modifies this, processor.exporter
      ensures hasEnded
      ensures processor.exporter.batches ==
        old(processor.exporter.batches) + (if old(hasEnded) then [] else Forwarded(processor.kind, this))
    {
      if !hasEnded {
        hasEnded := true;
        processor.OnEnd(this);
      }
    }
  }

  class Tracer {
    /** The registry key this tracer was created for. */
    ghost const key: TracerKey
    const libraryResource: Resource
    const processor: SpanProcessor

    constructor (key: TracerKey, processor: SpanProcessor)
      ensures this.key == key && libraryResource == LibraryResource(key) && this.processor == processor
    {
      this.key := key;
      libraryResource := LibraryResource(key);
      this.processor := processor;
    }

    /** A new, recording, not yet ended span carrying this tracer's resource. */
    method StartSpan(name: string) returns (span: Span)
      ensures fresh(span) && span.name == name && !span.hasEnded
      ensures span.isRecordingEvents && span.libraryResource == libraryResource && span.processor == processor
    {
      span := new Span(name, libraryResource, processor);
    }
  }

  /** A collector built by the factory from a tracer; each Collect starts and ends one span named "foo". */
  class Collector {
    const tracer: Tracer
    var isDisposed: bool

    constructor (tracer: Tracer)
      ensures this.tracer == tracer && !isDisposed
    {
      this.tracer := tracer;
      isDisposed := false;
    }

    method Collect() returns (span: Span)
      modifies tracer.processor.exporter
      ensures fresh(span) && span.name == "foo" && span.hasEnded
      ensures span.isRecordingEvents && span.libraryResource == tracer.libraryResource
      ensures tracer.processor.exporter.batches ==
        old(tracer.processor.exporter.batches) + Forwarded(tracer.processor.kind, span)
    {
      span := tracer.StartSpan("foo");
      span.End();
    }

    method Dispose()
      modifies this
      ensures isDisposed
    {
      isDisposed := true;
    }
  }

  /**
   * The library a collector's tracer is requested for. In the source these
   * come from the collector type's name and assembly version.
   */
  datatype CollectorSpec = CollectorSpec(name: string, version: string)

  /**
   * What the configuration callback sets on the builder: an exporter
   * (None: not set), the kind of processor built from the exporter, and
   * the collectors, in the order they were added.
   */
  datatype Configuration = Configuration(exporter: Option<SpanExporter>, processor: ProcessorKind, collectors: seq<CollectorSpec>)

  /** The configuration left by the empty callback `b => { }`. */
  const DefaultConfiguration: Configuration := Configuration(None, Inert, [])

  /** The key under which a collector's tracer is registered. */
  function CollectorKey(spec: CollectorSpec): (k: TracerKey)
    ensures spec.name != "" ==> k == Library(spec.name, Some(spec.version))
  {
    TracerKeyOf(Some(spec.name), Some(spec.version))
  }

  /** The keys of the tracers handed to the given collectors. */
  function CollectorKeys(specs: seq<CollectorSpec>): set<TracerKey> {
    if specs == [] then {}
    else CollectorKeys(specs[..|specs| - 1]) + {CollectorKey(specs[|specs| - 1])}
  }

  /** A key is among the collectors' keys exactly when some collector spec maps to it. */
  lemma {:induction false} CollectorKeysMembers(specs: seq<CollectorSpec>, k: TracerKey)
    ensures k in CollectorKeys(specs) <==> exists i | 0 <= i < |specs| :: CollectorKey(specs[i]) == k
    decreases |specs|
  {
    if specs != [] {
      var init := specs[..|specs| - 1];
      CollectorKeysMembers(init, k);
      if k in CollectorKeys(init) {
        var i :| 0 <= i < |init| && CollectorKey(init[i]) == k;
        assert specs[i] == init[i];
      }
      if exists i | 0 <= i < |specs| :: CollectorKey(specs[i]) == k {
        var i :| 0 <= i < |specs| && CollectorKey(specs[i]) == k;
        if i < |init| {
          assert CollectorKey(init[i]) == k;
        }
      }
    }
  }

  lemma NextPrefix<T>(prefix: seq<T>, s: seq<T>, i: nat)
    requires i < |s|
    ensures prefix + s[..i + 1] == (prefix + s[..i]) + [s[i]]
  {
    assert s[..i + 1] == s[..i] + [s[i]];
  }

  class TracerFactory {
    const exporter: SpanExporter
    const processor: SpanProcessor
    /** The tracer cache: at most one tracer per normalised key. */
    var tracers: map<TracerKey, Tracer>
    var collectors: seq<Collector>

    /**
     * Every cached tracer is the one for its key, carries that key's
     * resource and feeds the factory's processor; every collector's tracer
     * is the cached one for its key.
     */
    ghost predicate Valid()
      reads this
    {
      && processor.exporter == exporter
      && (forall k | k in tracers ::
            tracers[k].key == k && tracers[k].libraryResource == LibraryResource(k) && tracers[k].processor == processor)
      && (forall i | 0 <= i < |collectors| ::
            collectors[i].tracer.key in tracers && tracers[collectors[i].tracer.key] == collectors[i].tracer)
    }

    /**
     * The collectors are those of `specs`, in order, each holding the
     * tracer for its library's key, and the cache holds exactly their keys.
     */
    ghost predicate BuiltFrom(specs: seq<CollectorSpec>)
      reads this
    {
      && |collectors| == |specs|
      && (forall j | 0 <= j < |specs| :: collectors[j].tracer.key == CollectorKey(specs[j]))
      && tracers.Keys == CollectorKeys(specs)
    }

    /** Builds the factory from a configuration; each collector receives the tracer for its key. */
    constructor (config: Configuration)
      ensures Valid() && BuiltFrom(config.collectors)
      ensures config.exporter.Some? ==> exporter == config.exporter.value
      ensures config.exporter.None? ==> fresh(exporter) && exporter.batches == []
      ensures fresh(processor) && processor.kind == config.processor && !processor.isDisposed
      ensures forall i | 0 <= i < |collectors| :: fresh(collectors[i]) && !collectors[i].isDisposed
    {
      var e: SpanExporter;
      if config.exporter.Some? {
        e := config.exporter.value;
      } else {
        e := new SpanExporter();
      }
      exporter := e;
      processor := new SpanProcessor(config.processor, e);
      tracers := map[];
      collectors := [];
      new;
      AddCollectors([], config.collectors);
      assert [] + config.collectors == config.collectors;
    }

    /**
     * Registers one collector per spec, in order, after the ones already
     * built from `built`. Collectors are registered only while the factory
     * is being built: once GetTracer has cached a tracer of its own, the
     * precondition no longer holds, so only the constructor calls this.
     */
    method AddCollectors(ghost built: seq<CollectorSpec>, specs: seq<CollectorSpec>)
      requires Valid() && BuiltFrom(built)
      modifies this`tracers, this`collectors
      ensures Valid() && BuiltFrom(built + specs)
      ensures old(collectors) <= collectors
      ensures forall j | |old(collectors)| <= j < |collectors| :: fresh(collectors[j]) && !collectors[j].isDisposed
    {
      var i := 0;
      assert built + specs[..i] == built;
      while i < |specs|
        invariant 0 <= i <= |specs|
        invariant Valid() && BuiltFrom(built + specs[..i])
        invariant old(collectors) <= collectors
        invariant forall j | |old(collectors)| <= j < |collectors| :: fresh(collectors[j]) && !collectors[j].isDisposed
      {
        var c := AddCollector(built + specs[..i], specs[i]);
        NextPrefix(built, specs, i);
        i := i + 1;
      }
      assert specs[..i] == specs;
    }

    /**
     * Registers one more collector, built from the tracer for its
     * library's key. Like AddCollectors, it is reachable only while the
     * factory is being built.
     */
    method AddCollector(ghost specs: seq<CollectorSpec>, spec: CollectorSpec) returns (c: Collector)
      requires Valid() && BuiltFrom(specs)
      modifies this`tracers, this`collectors
      ensures Valid() && BuiltFrom(specs + [spec])
      ensures fresh(c) && !c.isDisposed && c.tracer.key == CollectorKey(spec)
      ensures collectors == old(collectors) + [c]
    {
      var t := GetTracer(Some(spec.name), Some(spec.version));
      c := new Collector(t);
      collectors := collectors + [c];
      assert (specs + [spec])[..|specs|] == specs;
    }

    /**
     * Returns the cached tracer for the normalised key, creating and
     * caching it on first use; the cache changes only by that insertion.
     */
    method GetTracer(name: Option<string>, version: Option<string>) returns (tracer: Tracer)
      requires Valid()
      modifies this`tracers
      ensures Valid()
      ensures tracer.key == TracerKeyOf(name, version)
      ensures tracer.libraryResource == LibraryResource(tracer.key) && tracer.processor == processor
      ensures tracer.key in old(tracers) ==> tracer == old(tracers)[tracer.key] && tracers == old(tracers)
      ensures tracer.key !in old(tracers) ==> fresh(tracer) && tracers == old(tracers)[tracer.key := tracer]
    {
      var key := TracerKeyOf(name, version);
      if key in tracers {
        tracer := tracers[key];
      } else {
        tracer := new Tracer(key, processor);
        tracers := tracers[key := tracer];
      }
    }

    /** Disposes every collector, in order, and then the processor. */
    method Dispose()
      requires Valid()
      modifies collectors, processor
      ensures Valid()
      ensures forall i | 0 <= i < |collectors| :: collectors[i].isDisposed
      ensures processor.isDisposed
    {
      var i := 0;
      while i < |collectors|
        invariant 0 <= i <= |collectors|
        invariant forall j | 0 <= j < i :: collectors[j].isDisposed
      {
        collectors[i].Dispose();
        i := i + 1;
      }
      processor.Dispose();
    }
  }

  /** TracerFactory.Create: a null configuration callback is an argument error. */
  method Create(configure: Option<Configuration>) returns (r: Result<TracerFactory, ArgumentError>)
    ensures configure.None? <==> r.Failure?
    ensures configure.None? ==> r.error == ArgumentNullError
    ensures configure.Some? ==>
      && fresh(r.value) && r.value.Valid()
      && fresh(r.value.processor) && r.value.processor.kind == configure.value.processor && !r.value.processor.isDisposed
      && (configure.value.exporter.Some? ==> r.value.exporter == configure.value.exporter.value)
      && (configure.value.exporter.None? ==> fresh(r.value.exporter) && r.value.exporter.batches == [])
      && r.value.BuiltFrom(configure.value.collectors)
      && (forall i | 0 <= i < |r.value.collectors| :: fresh(r.value.collectors[i]) && !r.value.collectors[i].isDisposed)
  {
    if configure.None? {
      r := Failure(ArgumentNullError);
    } else {
      var f := new TracerFactory(configure.value);
      r := Success(f);
    }
  }
}

/** The behaviour the tracer factory's tests pin down, stated over the model. */
module TraceScenarios {
  import opened Wrappers
  import opened Resources
  import opened Trace

  /**
   * Two GetTracer calls on one factory return the same tracer exactly when
   * their arguments normalise to the same key.
   */
  method TracerIdentity(f: TracerFactory, n1: Option<string>, v1: Option<string>, n2: Option<string>, v2: Option<string>)
    returns (same: bool)
    requires f.Valid()
    modifies f`tracers
    ensures f.Valid()
    ensures same <==> TracerKeyOf(n1, v1) == TracerKeyOf(n2, v2)
  {
    var t1 := f.GetTracer(n1, v1);
    var t2 := f.GetTracer(n2, v2);
    same := t1 == t2;
  }

  /** Create with a null callback throws an argument error. */
  method NullConfigurationRejected() returns (error: Option<ArgumentError>)
    ensures error == Some(ArgumentNullError)
  {
    var r := Create(None);
    error := if r.Failure? then Some(r.error) else None;
  }

  /**
   * With the empty callback, the tracer for "" starts a recording span
   * whose library resource is the empty resource.
   */
  method DefaultConfigurationSpan() returns (recording: bool, resource: Resource)
    ensures recording && resource == Empty
  {
    var r := Create(Some(DefaultConfiguration));
    var f := r.value;
    var tracer := f.GetTracer(Some(""), None);
    var span := tracer.StartSpan("foo");
    recording, resource := span.isRecordingEvents, span.libraryResource;
  }

  /**
   * The eight GetTracer calls of the identity test: the same name and
   * version give the same tracer; a different version, no version or a
   * different name give another; "", null and null with a version all
   * give the anonymous tracer, which no named call returns.
   */
  method TracerCacheScenario() returns (fooV1Again: bool, fooNoVersionDiffers: bool, fooV2Differs: bool,
                                        barDiffers: bool, anonymousDiffers: bool, emptyIsNull: bool, nullIgnoresVersion: bool)
    ensures fooV1Again && fooNoVersionDiffers && fooV2Differs && barDiffers
    ensures anonymousDiffers && emptyIsNull && nullIgnoresVersion
  {
    var r := Create(Some(DefaultConfiguration));
    var f := r.value;
    var tracer1 := f.GetTracer(Some("foo"), Some("semver:1.2.3"));
    var tracer2 := f.GetTracer(Some("foo"), None);
    var tracer3 := f.GetTracer(Some("foo"), Some("semver:2.3.4"));
    var tracer4 := f.GetTracer(Some("bar"), Some("semver:1.2.3"));
    var tracer5 := f.GetTracer(Some("foo"), Some("semver:1.2.3"));
    var tracer6 := f.GetTracer(Some(""), None);
    var tracer7 := f.GetTracer(None, None);
    var tracer8 := f.GetTracer(None, Some("semver:1.2.3"));
    fooV1Again := tracer1 == tracer5;
    fooNoVersionDiffers := tracer1 != tracer2;
    fooV2Differs := tracer1 != tracer3;
    barDiffers := tracer1 != tracer4;
    anonymousDiffers := tracer5 != tracer6;
    emptyIsNull := tracer6 == tracer7;
    nullIgnoresVersion := tracer7 == tracer8;
  }

  /** The factory of the pipeline scenario: the given exporter, a forwarding processor, two collectors of one library. */
  method ForwardingFactory(exporter: SpanExporter, spec: CollectorSpec) returns (f: TracerFactory)
    requires spec.name != ""
    ensures fresh(f) && f.Valid() && f.exporter == exporter && f.processor.exporter == exporter
    ensures fresh(f.processor) && f.processor.kind == Forwarding
    ensures |f.collectors| == 2 && fresh(f.collectors[0]) && fresh(f.collectors[1])
    ensures !f.collectors[0].isDisposed && !f.collectors[1].isDisposed && !f.processor.isDisposed
    ensures f.collectors[0].tracer.processor == f.processor
    ensures f.collectors[0].tracer.libraryResource == LibraryResource(Library(spec.name, Some(spec.version)))
  {
    var r := Create(Some(Configuration(Some(exporter), Forwarding, [spec, spec])));
    f := r.value;
    assert f.collectors[0].tracer.key == CollectorKey(spec);
  }

  /** Two collections through a forwarding processor export one batch each. */
  method CollectTwice(collector: Collector) returns (span1: Span, span2: Span)
    requires collector.tracer.processor.kind == Forwarding
    modifies collector.tracer.processor.exporter
    ensures collector.tracer.processor.exporter.batches
      == old(collector.tracer.processor.exporter.batches) + [[span1], [span2]]
  {
    span1 := collector.Collect();
    span2 := collector.Collect();
  }

  /**
   * With a forwarding processor, ending a span of the "my-app" tracer makes
   * one export call, two collections make two more, and every exported
   * batch holds exactly one span.
   */
  method ForwardingExportScenario(collectorName: string, collectorVersion: string)
    returns (exportsAfterEnd: nat, exportsAfterCollect: nat, singleSpanBatches: bool)
    requires collectorName != ""
    ensures exportsAfterEnd == 1 && exportsAfterCollect == 3 && singleSpanBatches
  {
    var exporter := new SpanExporter();
    var f := ForwardingFactory(exporter, CollectorSpec(collectorName, collectorVersion));
    var collector := f.collectors[0];
    var tracer := f.GetTracer(Some("my-app"), None);
    var span := tracer.StartSpan("foo");
    span.End();
    assert exporter.batches == [[span]];
    exportsAfterEnd := |exporter.batches|;

    var span1, span2 := CollectTwice(collector);
    var batches := exporter.batches;
    assert batches == [[span], [span1], [span2]];
    exportsAfterCollect := |batches|;
    singleSpanBatches := forall b | b in batches :: |b| == 1;
  }

  /**
   * The span of the "my-app" tracer carries the single label `name`; the
   * span a collector produces carries its library's `name` and `version`.
   */
  method ForwardingLabelsScenario(collectorName: string, collectorVersion: string)
    returns (appLabels: map<string, string>, collectorLabels: map<string, string>)
    requires collectorName != ""
    ensures appLabels == map[NameLabel := "my-app"]
    ensures collectorLabels == map[NameLabel := collectorName, VersionLabel := collectorVersion]
  {
    var exporter := new SpanExporter();
    var f := ForwardingFactory(exporter, CollectorSpec(collectorName, collectorVersion));
    var tracer := f.GetTracer(Some("my-app"), None);
    var span := tracer.StartSpan("foo");
    span.End();
    appLabels := span.libraryResource.labels;
    var span1 := f.collectors[0].Collect();
    collectorLabels := span1.libraryResource.labels;
  }

  /**
   * Both collectors and the processor start out undisposed, and disposing
   * the factory disposes all three.
   */
  method ForwardingDisposeScenario(collectorName: string, collectorVersion: string)
    returns (noneDisposedBefore: bool, allDisposed: bool)
    requires collectorName != ""
    ensures noneDisposedBefore && allDisposed
  {
    var exporter := new SpanExporter();
    var f := ForwardingFactory(exporter, CollectorSpec(collectorName, collectorVersion));
    noneDisposedBefore := !f.collectors[0].isDisposed && !f.collectors[1].isDisposed && !f.processor.isDisposed;
    f.Dispose();
    allDisposed := f.collectors[0].isDisposed && f.collectors[1].isDisposed && f.processor.isDisposed;
  }
}
