/** The parts of the Kubernetes API objects that the pipeline looks at. */
module Kube {

  type Uid = string

  datatype Option<+T> = None | Some(value: T)

  /** A Go `(T, error)` pair; the text of an error is not modelled. */
  datatype Result<+T> = Ok(value: T) | Err

  /** An API object. `Bare` is an object on which `meta.Accessor` fails. */
  datatype Object =
    | Object(uid: Uid, isNamespace: bool, name: string, namespace: string, body: string)
    | Bare(body: string)
  {
    /** `meta.Accessor` succeeds. */
    predicate HasMeta() {
      Object?
    }
  }

  datatype EventType = Added | Modified | Deleted | Bookmark | Error

  datatype Event = Event(kind: EventType, obj: Object)

  /** Every object of the list carries metadata. */
  predicate AllMeta(items: seq<Object>) {
    forall i | 0 <= i < |items| :: items[i].HasMeta()
  }

  /** What a lister returns: the items, and the version of the list. */
  datatype Listing = Listing(items: seq<Object>, version: string)
}
