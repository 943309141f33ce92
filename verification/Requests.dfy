/**
 An admission request: the pod it carries as a document, and the namespace the webhook settles
 on for it.
 */
module Requests {
  import opened Wrappers
  import opened JsonPatch
  import opened PodView

  // `owner` is what the API server answers for the namespace of the pod's first owner; None is an error.
  datatype Request = Request(doc: Json, namespace: string, owner: Option<string>)

  /** What encoding/json has filled in: the pod, the namespace it names, and whether it has an owner. */
  datatype Decoded = Decoded(pod: Pod, namespace: string, owned: bool)

  /** What is filled in of a document that does not decode. */
  type PartialDecoder = Json -> Decoded

  /** The pod the handler goes on with. */
  datatype Known = Known(pod: Pod, namespace: string)

  function NamespaceOf(doc: Json): string {
    PodView.Text(Member(Member(doc, "metadata"), "namespace"))
  }

  function DecodedFrom(doc: Json, partial: PartialDecoder): Decoded {
    if WellTyped(doc)
    then Decoded(PodOf(doc), NamespaceOf(doc), Items(Member(Member(doc, "metadata"), "ownerReferences")) != [])
    else partial(doc)
  }

  /** The pod with its namespace: its own, else the request's, else its owner's. None refuses the request. */
  function Deserialized(request: Request, partial: PartialDecoder): Option<Known> {
    var decoded := DecodedFrom(request.doc, partial);
    if decoded.namespace != "" then
      if WellTyped(request.doc) then Some(Known(decoded.pod, decoded.namespace)) else None
    else if request.namespace != "" then Some(Known(decoded.pod, request.namespace))
    else if decoded.owned && request.owner.None? then None
    else if WellTyped(request.doc) then Some(Known(decoded.pod, if decoded.owned then request.owner.value else ""))
    else None
  }

  /**
   A document that does not decode is refused, unless what was filled in of it names no namespace
   and the request does: then the error is dropped, and the handler goes on with half a pod.
   */
  lemma UndecodedLetThrough(request: Request, partial: PartialDecoder)
    requires !WellTyped(request.doc)
    ensures Deserialized(request, partial).Some? <==> partial(request.doc).namespace == "" && request.namespace != ""
    ensures Deserialized(request, partial).Some? ==>
              Deserialized(request, partial).value == Known(partial(request.doc).pod, request.namespace)
  {
  }

  /** Which namespace a decoded pod is taken to be in: its own, the request's, its owner's, or none. */
  lemma NamespaceChosen(request: Request, partial: PartialDecoder)
    requires WellTyped(request.doc)
    ensures var own, owners := NamespaceOf(request.doc), Items(Member(Member(request.doc, "metadata"), "ownerReferences"));
            var known := Deserialized(request, partial);
            && (own != "" ==> known == Some(Known(PodOf(request.doc), own)))
            && (own == "" && request.namespace != "" ==> known == Some(Known(PodOf(request.doc), request.namespace)))
            && (own == "" && request.namespace == "" && owners != [] && request.owner.Some? ==>
                  known == Some(Known(PodOf(request.doc), request.owner.value)))
            && (own == "" && request.namespace == "" && owners == [] ==> known == Some(Known(PodOf(request.doc), "")))
  {
  }

  /** A document that decodes is refused only if its namespace has to be its owner's and that is not found. */
  lemma DecodedRefused(request: Request, partial: PartialDecoder)
    requires WellTyped(request.doc)
    ensures Deserialized(request, partial).None? <==>
            && NamespaceOf(request.doc) == "" && request.namespace == ""
            && DecodedFrom(request.doc, partial).owned && request.owner.None?
    ensures Deserialized(request, partial).Some? ==> Deserialized(request, partial).value.pod == PodOf(request.doc)
  {
  }
}
