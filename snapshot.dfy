/**
 * The last-applied spec, kept as JSON text under the annotation "spec" of the
 * AppService itself (internal/controller/appservice_controller.go, the load
 * before the diff and the write at the end of a pass).
 *
 * JSON encoding is not modelled: a codec is a pair of functions, and a valid
 * codec is one whose decoding undoes its encoding, which never produces the
 * empty text, and which decodes `{}` to the zero spec, as json.Marshal and
 * json.Unmarshal do for this type.
 */
module Snapshot {
  import opened ApiTypes
  import opened Store

  const SpecAnnotation: string := "spec"
  const EmptyObject: string := "{}"

  datatype Codec = Codec(encode: AppServiceSpec -> string, decode: string -> Option<AppServiceSpec>)

  ghost predicate ValidCodec(codec: Codec) {
    && codec.decode(EmptyObject) == Some(ZeroSpec())
    && forall spec :: codec.encode(spec) != "" && codec.decode(codec.encode(spec)) == Some(spec)
  }

  /** The snapshot text: the annotation's value, or `{}` when it is absent or empty. */
  function SnapshotText(annotations: Option<map<string, string>>): (text: string)
    ensures text != ""
    ensures annotations.Some? && SpecAnnotation in annotations.value && annotations.value[SpecAnnotation] != ""
            ==> text == annotations.value[SpecAnnotation]
    ensures !(annotations.Some? && SpecAnnotation in annotations.value && annotations.value[SpecAnnotation] != "")
            ==> text == EmptyObject
  {
    if annotations.Some? && SpecAnnotation in annotations.value && annotations.value[SpecAnnotation] != "" then
      annotations.value[SpecAnnotation]
    else
      EmptyObject
  }

  /** The last-applied spec; text that does not decode is an error, not a reset. */
  function LoadSnapshot(codec: Codec, annotations: Option<map<string, string>>): (r: Result<AppServiceSpec>)
    ensures r.Err? ==> r.error == MalformedSnapshot && codec.decode(SnapshotText(annotations)).None?
    ensures r.Ok? ==> codec.decode(SnapshotText(annotations)) == Some(r.value)
  {
    match codec.decode(SnapshotText(annotations))
    case None => Err(MalformedSnapshot)
    case Some(spec) => Ok(spec)
  }

  /** The annotations with "spec" set to `data`; a nil map becomes a fresh one. */
  function WithSnapshot(annotations: Option<map<string, string>>, data: string): (r: map<string, string>)
    ensures SpecAnnotation in r && r[SpecAnnotation] == data
    ensures forall k :: k != SpecAnnotation ==>
              (k in r <==> annotations.Some? && k in annotations.value) &&
              (k in r ==> r[k] == annotations.value[k])
  {
    if annotations.Some? then annotations.value[SpecAnnotation := data] else map[SpecAnnotation := data]
  }

  /** A missing or empty snapshot reads as the zero spec. */
  lemma MissingSnapshotIsZeroSpec(codec: Codec, annotations: Option<map<string, string>>)
    requires ValidCodec(codec)
    requires annotations.None? || SpecAnnotation !in annotations.value || annotations.value[SpecAnnotation] == ""
    ensures LoadSnapshot(codec, annotations) == Ok(ZeroSpec())
  {
  }

  /** What a pass writes is what the next pass reads. */
  lemma SnapshotRoundTrip(codec: Codec, annotations: Option<map<string, string>>, spec: AppServiceSpec)
    requires ValidCodec(codec)
    ensures LoadSnapshot(codec, Some(WithSnapshot(annotations, codec.encode(spec)))) == Ok(spec)
  {
  }

  /** Writing a snapshot that is already there leaves the annotations as they were. */
  lemma WithSnapshotAgain(annotations: map<string, string>, data: string)
    requires SpecAnnotation in annotations && annotations[SpecAnnotation] == data
    ensures WithSnapshot(Some(annotations), data) == annotations
  {
  }
}
