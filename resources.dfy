/**
 * The tracer registry's key and the library resource a tracer carries.
 *
 * A tracer is requested by a (name, version) pair of nullable strings. A
 * null or empty name selects the one anonymous tracer, whatever version is
 * passed; otherwise the name and the version (null or not) together form
 * the key. The tracer's library resource is derived from that key: no
 * labels for the anonymous tracer, a `name` label for a named tracer, and
 * a `version` label as well when a version was given.
 */
module Resources {
  import opened Wrappers

  /** Descriptive string labels; two resources are equal iff their labels are. */
  datatype Resource = Resource(labels: map<string, string>)

  /** The resource with no labels. */
  const Empty: Resource := Resource(map[])

  const NameLabel: string := "name"
  const VersionLabel: string := "version"

  /** String.IsNullOrEmpty on a nullable string. */
  predicate IsNullOrEmpty(s: Option<string>) {
    s == None || s == Some("")
  }

  /** The normalised registry key: the anonymous tracer, or a named library with an optional version. */
  datatype TracerKey = Anonymous | Library(name: string, version: Option<string>)

  /** Normalises the arguments of GetTracer into the registry key. */
  function TracerKeyOf(name: Option<string>, version: Option<string>): (k: TracerKey)
    ensures k == Anonymous <==> IsNullOrEmpty(name)
    ensures k.Library? ==> Some(k.name) == name && k.name != "" && k.version == version
  {
    if IsNullOrEmpty(name) then Anonymous else Library(name.value, version)
  }

  /**
   * Two argument pairs reach the same tracer exactly when both names are
   * null or empty, or when the names are equal and non-empty and the
   * versions are equal (a null version differing from every given one).
   */
  lemma SameTracerKeyIff(n1: Option<string>, v1: Option<string>, n2: Option<string>, v2: Option<string>)
    ensures TracerKeyOf(n1, v1) == TracerKeyOf(n2, v2) <==>
      (IsNullOrEmpty(n1) && IsNullOrEmpty(n2)) || (!IsNullOrEmpty(n1) && n1 == n2 && v1 == v2)
  {
    var k1, k2 := TracerKeyOf(n1, v1), TracerKeyOf(n2, v2);
    if !IsNullOrEmpty(n1) && !IsNullOrEmpty(n2) && k1 == k2 {
      assert n1 == Some(k1.name) == Some(k2.name) == n2;
    }
  }

  /** The labels of the library resource of the tracer registered under a key. */
  function LibraryResource(key: TracerKey): (r: Resource)
    ensures key.Anonymous? ==> r == Empty
    ensures key.Library? ==> NameLabel in r.labels && r.labels[NameLabel] == key.name
    ensures VersionLabel in r.labels <==> key.Library? && key.version.Some?
    ensures VersionLabel in r.labels ==> r.labels[VersionLabel] == key.version.value
    ensures r.labels.Keys <= {NameLabel, VersionLabel}
  {
    match key
    case Anonymous => Empty
    case Library(name, None) => Resource(map[NameLabel := name])
    case Library(name, Some(v)) => Resource(map[NameLabel := name, VersionLabel := v])
  }

  /** The number of labels: none, one (name), or two (name and version). */
  function LabelCount(key: TracerKey): nat {
    match key
    case Anonymous => 0
    case Library(_, None) => 1
    case Library(_, Some(_)) => 2
  }

  lemma LibraryResourceSize(key: TracerKey)
    ensures |LibraryResource(key).labels| == LabelCount(key)
  {
    var r := LibraryResource(key);
    match key
    case Anonymous =>
    case Library(name, None) =>
      assert r.labels.Keys == {NameLabel};
    case Library(name, Some(v)) =>
      assert r.labels.Keys == {NameLabel, VersionLabel};
  }

  /**
   * The resource of the tracer obtained with GetTracer(name, version):
   * a `name` label iff the name is neither null nor empty, carrying that
   * name; a `version` label iff, in addition, a version was passed,
   * carrying that version; no other labels.
   */
  lemma ResourceOfTracerArguments(name: Option<string>, version: Option<string>)
    ensures var labels := LibraryResource(TracerKeyOf(name, version)).labels;
      && (NameLabel in labels <==> !IsNullOrEmpty(name))
      && (NameLabel in labels ==> Some(labels[NameLabel]) == name)
      && (VersionLabel in labels <==> !IsNullOrEmpty(name) && version.Some?)
      && (VersionLabel in labels ==> Some(labels[VersionLabel]) == version)
      && |labels| == (if IsNullOrEmpty(name) then 0 else if version.None? then 1 else 2)
  {
    LibraryResourceSize(TracerKeyOf(name, version));
  }
}
