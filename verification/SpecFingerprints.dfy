/** The annotations fingerprint of a document, tied to what its tracking record compares. */
module SpecFingerprints {
  import opened Wrappers
  import opened Lexicographic
  import opened JsonFingerprint
  import opened Processing
  import opened Documents

  function TextValues(texts: seq<string>): (r: seq<Value>)
    ensures |r| == |texts| && forall i :: 0 <= i < |r| ==> r[i] == Str(texts[i])
  {
    seq(|texts|, i requires 0 <= i < |texts| => Str(texts[i]))
  }

  function NodesValue(nodeSet: Option<seq<string>>): Value {
    if nodeSet.None? then Value.None else List(TextValues(SortTexts(nodeSet.value)))
  }

  function AnnotationNames(): seq<string> {
    ["external_metadata", "node_set"]
  }

  function AnnotationsValue(metadata: Value, nodeSet: Option<seq<string>>): Value {
    Dict(Entries(AnnotationNames(), [metadata, NodesValue(nodeSet)]))
  }

  /** What a record keeps of metadata: its canonical text. */
  function MetadataText(metadata: Value): (r: Option<string>)
    requires CanonicalText(metadata).Success?
    ensures r.None? <==> metadata == Value.None
  {
    if metadata == Value.None then Option.None else Some(CanonicalText(metadata).value)
  }

  ghost predicate ValidMetadata(metadata: Value) {
    (metadata == Value.None || metadata.Dict?) && Genuine(metadata) && CanonicalText(metadata).Success?
  }

  ghost predicate ValidNodes(nodeSet: Option<seq<string>>) {
    nodeSet.Some? ==> NoRepeats(nodeSet.value)
  }

  lemma NodesAreRead(a: Option<seq<string>>, b: Option<seq<string>>)
    requires ValidNodes(a) && ValidNodes(b)
    ensures Same(NodesValue(a), NodesValue(b)) <==> AnnotationsOf(Option.None, a) == AnnotationsOf(Option.None, b)
  {
    if a.Some? && b.Some? {
      var x, y := SortTexts(a.value), SortTexts(b.value);
      SortTextsForgetsOrderOnly(a.value, b.value);
      assert SameItems(TextValues(x), TextValues(y)) <==> x == y by {
        if |x| == |y| {
          forall i | 0 <= i < |x| ensures Same(TextValues(x)[i], TextValues(y)[i]) <==> x[i] == y[i] {
          }
        }
      }
    }
  }

  lemma MetadataIsRead(m: Value, n: Value)
    requires ValidMetadata(m) && ValidMetadata(n)
    ensures Same(m, n) <==> MetadataText(m) == MetadataText(n)
  {
    TextTellsSame(m, n);
  }

  lemma NodesEncode(nodeSet: Option<seq<string>>)
    ensures Genuine(NodesValue(nodeSet)) && Encodable(NodesValue(nodeSet))
  {
    if nodeSet.Some? {
      var items := NodesValue(nodeSet).items;
      assert forall i :: 0 <= i < |items| ==> Genuine(items[i]) && Encodable(items[i]);
    }
  }

  lemma AnnotationNamesDiffer()
    ensures |AnnotationNames()| == 2 && AnnotationNames()[0] != AnnotationNames()[1]
  {
    assert |AnnotationNames()[0]| != |AnnotationNames()[1]|;
  }

  lemma TwoFields(names: seq<string>, v: Value, w: Value, v': Value, w': Value)
    requires |names| == 2 && names[0] != names[1]
    ensures Same(Dict(Entries(names, [v, w])), Dict(Entries(names, [v', w']))) <==> Same(v, v') && Same(w, w')
  {
    var x, y := [v, w], [v', w'];
    SameFieldByField(names, x, y);
    assert SameItems(x, y) <==> Same(x[0], y[0]) && Same(x[1], y[1]);
  }

  lemma AnnotationsEncode(m: Value, nodeSet: Option<seq<string>>)
    requires ValidMetadata(m)
    ensures Genuine(AnnotationsValue(m, nodeSet)) && CanonicalText(AnnotationsValue(m, nodeSet)).Success?
  {
    assert |AnnotationNames()[0]| != |AnnotationNames()[1]|;
    var values := [m, NodesValue(nodeSet)];
    NodesEncode(nodeSet);
    assert forall i :: 0 <= i < 2 ==> Genuine(values[i]) && Encodable(values[i]);
  }

  /**
   Two documents have one annotations fingerprint exactly when their records hold the same
   annotations: metadata of one canonical text and the same nodes in any order.
   */
  lemma AnnotationsFingerprintTells(m: Value, a: Option<seq<string>>, n: Value, b: Option<seq<string>>)
    requires ValidMetadata(m) && ValidMetadata(n) && ValidNodes(a) && ValidNodes(b)
    ensures CanonicalText(AnnotationsValue(m, a)) == CanonicalText(AnnotationsValue(n, b))
            <==> AnnotationsOf(MetadataText(m), a) == AnnotationsOf(MetadataText(n), b)
  {
    AnnotationsEncode(m, a);
    AnnotationsEncode(n, b);
    TextTellsSame(AnnotationsValue(m, a), AnnotationsValue(n, b));
    AnnotationNamesDiffer();
    TwoFields(AnnotationNames(), m, NodesValue(a), n, NodesValue(b));
    MetadataIsRead(m, n);
    NodesAreRead(a, b);
  }
}
