/** The client-go reflector: what it makes of the lists and watch events it is handed, and what its store then holds. */
module Reflector {
  import opened Kube
  import opened StoreSpec

  /** What a lister-watcher hands to the reflector. */
  datatype Input = Listed(items: seq<Object>) | ListFailed | Watched(event: Event)

  /** A list replaces the store; an event with metadata is applied to it. */
  function Reflect(input: Input): Option<Op> {
    match input
    case Listed(items) => Some(Replace(items))
    case ListFailed => None
    case Watched(event) =>
      if !event.obj.HasMeta() then None
      else
        match event.kind
        case Added => Some(Add(event.obj))
        case Modified => Some(Update(event.obj))
        case Deleted => Some(Delete(event.obj))
        case Bookmark => None
        case Error => None
  }

  /** The contents of a store fed a run, when `arrive` says which operation an input ends in. */
  function Fed<V>(r: Object -> V, arrive: Input -> Option<Op>, inputs: seq<Input>): map<Uid, V> {
    if inputs == [] then map[]
    else Absorb(r, Fed(r, arrive, inputs[..|inputs| - 1]), arrive(inputs[|inputs| - 1]))
  }

  /** The operations that arrive. */
  function Arrived(arrive: Input -> Option<Op>, inputs: seq<Input>): seq<Op> {
    if inputs == [] then []
    else
      match arrive(inputs[|inputs| - 1])
      case None => Arrived(arrive, inputs[..|inputs| - 1])
      case Some(op) => Arrived(arrive, inputs[..|inputs| - 1]) + [op]
  }

  lemma FedSnoc<V>(r: Object -> V, arrive: Input -> Option<Op>, inputs: seq<Input>, x: Input)
    ensures Fed(r, arrive, inputs + [x]) == Absorb(r, Fed(r, arrive, inputs), arrive(x))
  {
    assert (inputs + [x])[..|inputs|] == inputs;
  }

  lemma {:induction false} FedIsContents<V>(r: Object -> V, arrive: Input -> Option<Op>, inputs: seq<Input>)
    ensures Fed(r, arrive, inputs) == Contents(r, Arrived(arrive, inputs))
    decreases |inputs|
  {
    if inputs != [] {
      var init, op := inputs[..|inputs| - 1], arrive(inputs[|inputs| - 1]);
      FedIsContents(r, arrive, init);
      if op.Some? {
        ContentsSnoc(r, Arrived(arrive, init), op.value);
      }
    }
  }

  /** Not a list that holds an object without metadata. */
  predicate Good(input: Input) {
    input.Listed? ==> AllMeta(input.items)
  }

  /** Every list that holds an object without metadata is followed by one that does not. */
  predicate Settled(inputs: seq<Input>) {
    inputs == [] ||
    var x := inputs[|inputs| - 1];
    if x.Listed? then AllMeta(x.items) else Settled(inputs[..|inputs| - 1])
  }
}
