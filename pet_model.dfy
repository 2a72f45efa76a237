/** The Pet record of the Mongoose schema. The owner and the adopter are
    embedded value snapshots taken when the record is written, not
    references to users. `createdAt` is the record's creation stamp, a
    logical counter here. */
module PetModel {
  import opened Common

  /** The owner's `{_id, name, image, phone}`, copied at creation. */
  datatype OwnerSnapshot = OwnerSnapshot(id: Id, name: string, image: Option<string>, phone: string)

  /** The adopter's `{_id, name, image}`, copied when a visit is scheduled. */
  datatype AdopterSnapshot = AdopterSnapshot(id: Id, name: string, image: Option<string>)

  datatype Pet = Pet(
    id: Id,
    name: string,
    species: string,
    description: Option<string>,
    age: real,
    weight: real,
    images: seq<string>,
    available: bool,
    owner: OwnerSnapshot,
    adopter: Option<AdopterSnapshot>,
    createdAt: nat)

  /** The schema's own validation: `name` and `species` are required
      strings, and Mongoose's `required` refuses the empty string. The
      required numbers and the required array are always present here. */
  predicate Conforms(p: Pet)
  {
    p.name != "" && p.species != ""
  }

  /** Where a pet stands in the adoption lifecycle, read off its record. */
  datatype Stage = Open | Scheduled | Concluded

  function StageOf(p: Pet): (s: Stage)
    ensures s == Concluded <==> !p.available
    ensures s == Open <==> p.available && p.adopter.None?
    ensures s == Scheduled <==> p.available && p.adopter.Some?
  {
    if !p.available then Concluded
    else if p.adopter.None? then Open
    else Scheduled
  }

  /** The lifecycle order: an open pet may move to any stage, a scheduled
      one stays scheduled (possibly with another adopter) or is concluded,
      and a concluded one stays concluded. */
  predicate Advances(s: Stage, t: Stage)
  {
    s == t || s == Open || t == Concluded
  }
}
