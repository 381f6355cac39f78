/** The custom resources, as the reconcilers read them (api/v1). */
module Types {
  import opened Wrappers

  datatype SourceRef = SourceRef(group: string, version: string, kind: string, namespace: string, name: string)

  datatype Overlay = Overlay(labels: map<string, string>, annotations: map<string, string>)

  /** A parsed label selector: an arbitrary predicate on label sets. `invalid` is the error of
      LabelSelectorAsSelector, `empty` is Selector.Empty(). */
  datatype Selector = Selector(invalid: bool, empty: bool, matches: map<string, string> -> bool)

  datatype Projection = Projection(
    namespace: string,
    name: string,
    uid: string,
    source: SourceRef,
    destinationName: string,
    overlay: Overlay)

  datatype ClusterProjection = ClusterProjection(
    name: string,
    uid: string,
    source: SourceRef,
    destinationName: string,
    namespaces: seq<string>,
    selector: Option<Selector>,
    overlay: Overlay)

  /** Coordinates of a stored object; `kind` stands for the resolved resource. */
  datatype Key = Key(kind: string, ns: string, name: string)

  /** The four ownership marks an object can carry: an annotation and a UID label for each tier. */
  datatype Stamp = Stamp(nsOwner: Option<string>, nsUid: Option<string>, clOwner: Option<string>, clUid: Option<string>)

  /** Both tiers' annotations on one object. */
  predicate CoOwned(s: Stamp)
  {
    s.nsOwner.Some? && s.clOwner.Some?
  }

  /** destinationCoords: always the Projection's own namespace, the name defaulting to the source's. */
  function DestinationCoords(proj: Projection): (string, string)
  {
    (proj.namespace, if proj.destinationName == "" then proj.source.name else proj.destinationName)
  }

  function ClusterDestinationName(cp: ClusterProjection): string
  {
    if cp.destinationName != "" then cp.destinationName else cp.source.name
  }

  function OwnerKey(proj: Projection): string
  {
    proj.namespace + "/" + proj.name
  }

  function ClusterOwnerKey(cp: ClusterProjection): string
  {
    cp.name
  }
}
