/**
 Desired documents, the payloads written to Cognee and the tracking records.

 A fingerprint is modelled by the value it digests (BLAKE2b and canonical JSON are taken to be
 injective), and a processing fingerprint stands for the cognify profile it was computed from.
 */
module Documents {
  import opened Wrappers
  import opened Identity

  type Key = string
  type Fingerprint = string

  const RECORD_SCHEMA_VERSION: nat := 2

  /** Text and bytes never fingerprint alike. */
  datatype Content = Text(chars: string) | Binary(bytes: seq<bv8>)

  /** `metadata` is the canonical JSON text of external_metadata. */
  datatype Spec = Spec(
    content: Content,
    labelText: Option<string>,
    metadata: Option<string>,
    nodeSet: Option<seq<string>>,
    weight: Option<real>)

  datatype Payload = Payload(
    id: DataId,
    content: Content,
    labelText: Option<string>,
    metadata: Option<string>,
    nodeSet: Option<seq<string>>,
    weight: Option<real>)

  /** What annotations_fingerprint digests: node_set is sorted first, so its order is lost. */
  datatype Annotations = Annotations(metadata: Option<string>, nodes: Option<multiset<string>>)

  function AnnotationsOf(metadata: Option<string>, nodeSet: Option<seq<string>>): Annotations {
    Annotations(metadata, if nodeSet.None? then None else Some(multiset(nodeSet.value)))
  }

  /** Records written before the weight was tracked carry an empty weight fingerprint. */
  datatype WeightFingerprint = Unrecorded | Recorded(weight: Option<real>)

  datatype Record = Record(
    id: DataId,
    content: Content,
    annotations: Annotations,
    labelText: Option<string>,
    processing: Fingerprint,
    weight: WeightFingerprint,
    schema: nat)

  function RecordFor(spec: Spec, id: DataId, processing: Fingerprint): Record {
    Record(id, spec.content, AnnotationsOf(spec.metadata, spec.nodeSet), spec.labelText, processing,
           Recorded(spec.weight), RECORD_SCHEMA_VERSION)
  }

  function PayloadFor(spec: Spec, id: DataId): Payload {
    Payload(id, spec.content, spec.labelText, spec.metadata, spec.nodeSet, spec.weight)
  }

  /** The two records agree on everything that shapes derivatives except the weight. */
  predicate SameDerivativeInputs(a: Record, b: Record) {
    && a.id == b.id
    && a.content == b.content
    && a.annotations == b.annotations
    && a.processing == b.processing
    && a.schema == b.schema
  }
}
