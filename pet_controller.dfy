/** The pet registry and the adoption lifecycle: the request handlers over a
    map of pet records. Each mutating handler is a chain of guards (the id
    is valid, the pet exists, the caller is or is not its owner, the
    required fields are present) followed by one write. The caller is the
    user the request's token resolves to; `log` keeps the ids in order of
    creation, which is the order of the `createdAt` stamps. */
module PetController {
  import opened Common
  import opened PetModel
  import UserController

  type User = UserController.User

  /** The fields of a create or an update request. `available` is read by
      `updatePet` and then never used. */
  datatype PetBody = PetBody(
    name: Option<string>,
    species: Option<string>,
    description: Option<string>,
    age: Option<real>,
    weight: Option<real>,
    available: Option<bool>)

  /** `updatedData`: the fields an update sets, filled in one at a time. */
  datatype Patch = Patch(
    name: Option<string>,
    species: Option<string>,
    description: Option<string>,
    age: Option<real>,
    weight: Option<real>,
    images: Option<seq<string>>)

  const EmptyPatch := Patch(None, None, None, None, None, None)

  /** `findByIdAndUpdate(id, patch)`: the fields the patch holds replace the stored ones. */
  function Apply(p: Pet, patch: Patch): Pet
  {
    p.(name := if patch.name.Some? then patch.name.value else p.name,
       species := if patch.species.Some? then patch.species.value else p.species,
       description := if patch.description.Some? then patch.description else p.description,
       age := if patch.age.Some? then patch.age.value else p.age,
       weight := if patch.weight.Some? then patch.weight.value else p.weight,
       images := if patch.images.Some? then patch.images.value else p.images)
  }

  /** What a handler answers. `Visit` is the scheduling confirmation, which
      carries the owner's name and phone; `Fault` is a query that throws
      (a malformed id reaching Mongoose), so that no answer is sent and
      nothing is stored. */
  datatype Reply =
    | PetCreated(pet: Pet)
    | Found(pet: Pet)
    | Done
    | Visit(ownerName: string, ownerPhone: string)
    | Rejected(reason: Reason)
    | NotFound
    | Fault

  /** The filter of the three listings. */
  datatype Query = Everything | OwnedBy(ownerId: Id) | AdoptedBy(adopterId: Id)

  predicate Selects(q: Query, p: Pet)
  {
    match q
    case Everything => true
    case OwnedBy(u) => p.owner.id == u
    case AdoptedBy(u) => p.adopter.Some? && p.adopter.value.id == u
  }

  /** The file names of the uploaded images, in upload order
      (`images.map(image => list.push(image.filename))`). */
  method CollectFilenames(files: seq<UploadedFile>) returns (names: seq<string>)
    ensures |names| == |files|
    ensures forall i :: 0 <= i < |files| ==> names[i] == files[i].filename
  {
    names := [];
    for i := 0 to |files|
      invariant |names| == i
      invariant forall k :: 0 <= k < i ==> names[k] == files[k].filename
    {
      names := names + [files[i].filename];
    }
  }

  /** No id is created twice. */
  ghost predicate Distinct(log: seq<Id>)
  {
    forall i, j :: 0 <= i < j < |log| ==> log[i] != log[j]
  }

  /** Every stored pet is filed under its own id, and its `createdAt` is
      the position of that id in the creation log. */
  ghost predicate Indexed(pets: map<Id, Pet>, log: seq<Id>)
  {
    forall id :: id in pets ==> pets[id].id == id && pets[id].createdAt < |log| && log[pets[id].createdAt] == id
  }

  /** What the schema and the guards of create and update guarantee of a stored pet. */
  ghost predicate PetRegistered(p: Pet)
  {
    Conforms(p) && p.age != 0.0 && p.weight != 0.0 && |p.images| > 0
  }

  /** `caller` is the recorded owner of pet `id`. */
  predicate Owns(pets: map<Id, Pet>, id: Id, caller: User)
  {
    id in pets && pets[id].owner.id == caller.id
  }

  /** Between two states: no pet changes owner or creation stamp, a pet
      that is no longer available stays so, and a pet that has an adopter
      keeps having one. */
  ghost predicate Settled(before: map<Id, Pet>, after: map<Id, Pet>)
  {
    forall id :: id in before && id in after ==>
      && after[id].owner == before[id].owner
      && after[id].createdAt == before[id].createdAt
      && (!before[id].available ==> !after[id].available)
      && (before[id].adopter.Some? ==> after[id].adopter.Some?)
  }

  /** Between settled states every pet's stage only moves forward in the
      lifecycle: a concluded pet never reopens, a scheduled one never
      loses its adopter. */
  lemma SettledAdvances(before: map<Id, Pet>, after: map<Id, Pet>, id: Id)
    requires Settled(before, after) && id in before && id in after
    ensures Advances(StageOf(before[id]), StageOf(after[id]))
    ensures StageOf(before[id]) == Concluded ==> StageOf(after[id]) == Concluded
  {
  }

  /** Writing back a pet under its own id, with its owner and creation
      stamp kept and without making an unavailable pet available, keeps
      the store indexed and settles with the old state. */
  lemma WriteBack(pets: map<Id, Pet>, log: seq<Id>, id: Id, p: Pet)
    requires Indexed(pets, log) && id in pets
    requires p.id == id && p.createdAt == pets[id].createdAt && p.owner == pets[id].owner
    requires pets[id].available || !p.available
    requires pets[id].adopter.None? || p.adopter.Some?
    ensures Indexed(pets[id := p], log) && Settled(pets, pets[id := p])
  {
  }

  /** The pets created at log positions below `n` that `q` selects, newest first. */
  function Collect(pets: map<Id, Pet>, log: seq<Id>, q: Query, n: nat): seq<Pet>
    requires n <= |log|
  {
    if n == 0 then []
    else
      var id := log[n - 1];
      (if id in pets && Selects(q, pets[id]) then [pets[id]] else []) + Collect(pets, log, q, n - 1)
  }

  /** `r` lists exactly the stored pets that `q` selects, each once, in
      decreasing order of creation. */
  ghost predicate ListedNewestFirst(r: seq<Pet>, pets: map<Id, Pet>, q: Query)
  {
    && (forall i :: 0 <= i < |r| ==> r[i].id in pets && pets[r[i].id] == r[i] && Selects(q, r[i]))
    && (forall id :: id in pets && Selects(q, pets[id]) ==> pets[id] in r)
    && (forall i, j :: 0 <= i < j < |r| ==> r[i].createdAt > r[j].createdAt)
  }

  /** The pet created at log position `k`, if still stored, has `createdAt == k`. */
  lemma StampIsPosition(pets: map<Id, Pet>, log: seq<Id>, k: nat)
    requires Distinct(log) && Indexed(pets, log) && k < |log| && log[k] in pets
    ensures pets[log[k]].createdAt == k
  {
  }

  lemma {:induction false} CollectSound(pets: map<Id, Pet>, log: seq<Id>, q: Query, n: nat)
    requires Distinct(log) && Indexed(pets, log) && n <= |log|
    ensures forall p | p in Collect(pets, log, q, n) ::
              p.id in pets && pets[p.id] == p && Selects(q, p) && p.createdAt < n
  {
    if n > 0 {
      CollectSound(pets, log, q, n - 1);
      if log[n - 1] in pets {
        StampIsPosition(pets, log, n - 1);
      }
    }
  }

  lemma {:induction false} CollectComplete(pets: map<Id, Pet>, log: seq<Id>, q: Query, n: nat)
    requires Distinct(log) && Indexed(pets, log) && n <= |log|
    ensures forall id | id in pets && Selects(q, pets[id]) && pets[id].createdAt < n ::
              pets[id] in Collect(pets, log, q, n)
  {
    if n > 0 {
      CollectComplete(pets, log, q, n - 1);
    }
  }

  lemma {:induction false} CollectSorted(pets: map<Id, Pet>, log: seq<Id>, q: Query, n: nat)
    requires Distinct(log) && Indexed(pets, log) && n <= |log|
    ensures forall i, j | 0 <= i < j < |Collect(pets, log, q, n)| ::
              Collect(pets, log, q, n)[i].createdAt > Collect(pets, log, q, n)[j].createdAt
  {
    if n > 0 {
      CollectSorted(pets, log, q, n - 1);
      var id := log[n - 1];
      var rest := Collect(pets, log, q, n - 1);
      if id in pets && Selects(q, pets[id]) {
        StampIsPosition(pets, log, n - 1);
        CollectSound(pets, log, q, n - 1);
        var r := [pets[id]] + rest;
        assert r == Collect(pets, log, q, n);
        forall i, j | 0 <= i < j < |r| ensures r[i].createdAt > r[j].createdAt {
          assert r[j] == rest[j - 1] && rest[j - 1] in rest;
          if i > 0 {
            assert r[i] == rest[i - 1];
            assert rest[i - 1].createdAt > rest[j - 1].createdAt;
          } else {
            assert r[i] == pets[log[n - 1]];
          }
        }
      }
    }
  }

  /** The three facts about `Collect` that the listings promise. */
  lemma CollectNewestFirst(pets: map<Id, Pet>, log: seq<Id>, q: Query)
    requires Distinct(log) && Indexed(pets, log)
    ensures ListedNewestFirst(Collect(pets, log, q, |log|), pets, q)
  {
    var r := Collect(pets, log, q, |log|);
    CollectSound(pets, log, q, |log|);
    CollectComplete(pets, log, q, |log|);
    CollectSorted(pets, log, q, |log|);
    forall i | 0 <= i < |r| ensures r[i].id in pets && pets[r[i].id] == r[i] && Selects(q, r[i]) {
      assert r[i] in r;
    }
  }

  class PetStore {
    var pets: map<Id, Pet>
    /** The ids of all pets ever created, oldest first. */
    var log: seq<Id>
    /** `ObjectId.isValid`. */
    const isValid: Id -> bool

    ghost predicate Valid()
      reads this
    {
      && Distinct(log)
      && Indexed(pets, log)
      && forall id :: id in pets ==> isValid(id) && PetRegistered(pets[id])
    }

    constructor (isValid: Id -> bool)
      ensures Valid() && pets == map[] && log == []
      ensures this.isValid == isValid
    {
      pets := map[];
      log := [];
      this.isValid := isValid;
    }

    /** `create`: name, species, age, weight and at least one image are
        required, checked in that order. The new pet is available, has no
        adopter, carries a snapshot of its owner and the uploaded file names
        in upload order. `freshId` is the ObjectId the database assigns. */
    method Create(caller: User, body: PetBody, files: seq<UploadedFile>, freshId: Id) returns (r: Reply)
      requires Valid()
      requires isValid(freshId) && freshId !in log
      modifies this
      ensures Valid() && Settled(old(pets), pets)
      ensures !Truthy(body.name) ==> r == Rejected(NameRequired)
      ensures Truthy(body.name) && !Truthy(body.species) ==> r == Rejected(SpeciesRequired)
      ensures Truthy(body.name) && Truthy(body.species) && !TruthyNumber(body.age) ==> r == Rejected(AgeRequired)
      ensures Truthy(body.name) && Truthy(body.species) && TruthyNumber(body.age) && !TruthyNumber(body.weight)
              ==> r == Rejected(WeightRequired)
      ensures Truthy(body.name) && Truthy(body.species) && TruthyNumber(body.age) && TruthyNumber(body.weight)
              && files == []
              ==> r == Rejected(ImageRequired)
      ensures Truthy(body.name) && Truthy(body.species) && TruthyNumber(body.age) && TruthyNumber(body.weight)
              && |files| > 0
              ==> r.PetCreated?
      ensures r.Rejected? || r.PetCreated?
      ensures r.Rejected? ==> pets == old(pets) && log == old(log)
      ensures r.PetCreated? ==>
                && Truthy(body.name) && Truthy(body.species) && TruthyNumber(body.age) && TruthyNumber(body.weight)
                && |files| > 0
                && pets == old(pets)[freshId := r.pet] && log == old(log) + [freshId]
                && r.pet.id == freshId
                && r.pet.name == body.name.value && r.pet.species == body.species.value
                && r.pet.description == body.description
                && r.pet.age == body.age.value && r.pet.weight == body.weight.value
                && |r.pet.images| == |files|
                && (forall i :: 0 <= i < |files| ==> r.pet.images[i] == files[i].filename)
                && r.pet.available
                && r.pet.owner == OwnerSnapshot(caller.id, caller.name, caller.image, caller.phone)
                && r.pet.adopter.None?
                && r.pet.createdAt == |old(log)|
                && StageOf(r.pet) == Open
    {
      var available := true;
      if !Truthy(body.name) { return Rejected(NameRequired); }
      if !Truthy(body.species) { return Rejected(SpeciesRequired); }
      if !TruthyNumber(body.age) { return Rejected(AgeRequired); }
      if !TruthyNumber(body.weight) { return Rejected(WeightRequired); }
      if |files| == 0 { return Rejected(ImageRequired); }
      var pet := Pet(freshId, body.name.value, body.species.value, body.description,
                     body.age.value, body.weight.value, [], available,
                     OwnerSnapshot(caller.id, caller.name, caller.image, caller.phone), None, |log|);
      var names := CollectFilenames(files);
      pet := pet.(images := names);
      pets := pets[freshId := pet];
      log := log + [freshId];
      r := PetCreated(pet);
    }

    /** `getAll`: every pet, newest first. */
    function GetAll(): (r: seq<Pet>)
      reads this
      requires Valid()
      ensures ListedNewestFirst(r, pets, Everything)
    {
      CollectNewestFirst(pets, log, Everything);
      Collect(pets, log, Everything, |log|)
    }

    /** `getAllUserPets`: the pets whose owner snapshot has the caller's id, newest first. */
    function GetAllUserPets(caller: User): (r: seq<Pet>)
      reads this
      requires Valid()
      ensures ListedNewestFirst(r, pets, OwnedBy(caller.id))
    {
      CollectNewestFirst(pets, log, OwnedBy(caller.id));
      Collect(pets, log, OwnedBy(caller.id), |log|)
    }

    /** `getAllUserAdoptions`: the pets whose adopter snapshot has the caller's id, newest first. */
    function GetAllUserAdoptions(caller: User): (r: seq<Pet>)
      reads this
      requires Valid()
      ensures ListedNewestFirst(r, pets, AdoptedBy(caller.id))
    {
      CollectNewestFirst(pets, log, AdoptedBy(caller.id));
      Collect(pets, log, AdoptedBy(caller.id), |log|)
    }

    /** `getPetById`: an id that is not an ObjectId is refused, a missing
        pet is not found, otherwise the stored record is returned. */
    function GetPetById(id: Id): (r: Reply)
      reads this
      requires Valid()
      ensures r == Rejected(InvalidId) <==> !isValid(id)
      ensures r == NotFound <==> isValid(id) && id !in pets
      ensures r.Found? <==> id in pets
      ensures r.Found? ==> r.pet == pets[id] && r.pet.id == id
    {
      if !isValid(id) then Rejected(InvalidId)
      else if id !in pets then NotFound
      else Found(pets[id])
    }

    /** `removePetById`: only the owner removes a pet, and exactly that pet. */
    method Remove(caller: User, id: Id) returns (r: Reply)
      requires Valid()
      modifies this
      ensures Valid() && log == old(log) && Settled(old(pets), pets)
      ensures !isValid(id) ==> r == Rejected(InvalidId)
      ensures isValid(id) && id !in old(pets) ==> r == NotFound
      ensures id in old(pets) && old(pets)[id].owner.id != caller.id ==> r == Rejected(NotOwner)
      ensures r == Done <==> Owns(old(pets), id, caller)
      ensures r == Done ==> pets == old(pets) - {id}
      ensures r != Done ==> pets == old(pets)
    {
      if !isValid(id) { return Rejected(InvalidId); }
      if id !in pets { return NotFound; }
      var pet := pets[id];
      if pet.owner.id != caller.id { return Rejected(NotOwner); }
      pets := pets - {id};
      r := Done;
    }

    /** `updatePet`: only the owner updates, and name, species, description,
        age, weight and at least one image are all required, checked in that
        order. Exactly those six fields are replaced; `available` in the
        request is ignored, and the owner, the adopter and availability are
        kept. An id that is not an ObjectId makes the lookup throw. */
    method Update(caller: User, id: Id, body: PetBody, files: seq<UploadedFile>) returns (r: Reply)
      requires Valid()
      modifies this
      ensures Valid() && log == old(log) && Settled(old(pets), pets)
      ensures !isValid(id) ==> r == Fault
      ensures isValid(id) && id !in old(pets) ==> r == NotFound
      ensures id in old(pets) && old(pets)[id].owner.id != caller.id ==> r == Rejected(NotOwner)
      ensures Owns(old(pets), id, caller) && !Truthy(body.name) ==> r == Rejected(NameRequired)
      ensures Owns(old(pets), id, caller) && Truthy(body.name) && !Truthy(body.species)
              ==> r == Rejected(SpeciesRequired)
      ensures Owns(old(pets), id, caller) && Truthy(body.name) && Truthy(body.species) && !Truthy(body.description)
              ==> r == Rejected(DescriptionRequired)
      ensures Owns(old(pets), id, caller) && Truthy(body.name) && Truthy(body.species) && Truthy(body.description)
              && !TruthyNumber(body.age)
              ==> r == Rejected(AgeRequired)
      ensures Owns(old(pets), id, caller) && Truthy(body.name) && Truthy(body.species) && Truthy(body.description)
              && TruthyNumber(body.age) && !TruthyNumber(body.weight)
              ==> r == Rejected(WeightRequired)
      ensures Owns(old(pets), id, caller) && Truthy(body.name) && Truthy(body.species) && Truthy(body.description)
              && TruthyNumber(body.age) && TruthyNumber(body.weight) && files == []
              ==> r == Rejected(ImageRequired)
      ensures Owns(old(pets), id, caller) && Truthy(body.name) && Truthy(body.species) && Truthy(body.description)
              && TruthyNumber(body.age) && TruthyNumber(body.weight) && |files| > 0
              ==> r == Done
      ensures r != Done ==> pets == old(pets)
      ensures r == Done ==>
                && Owns(old(pets), id, caller) && id in pets
                && Truthy(body.name) && Truthy(body.species) && Truthy(body.description)
                && TruthyNumber(body.age) && TruthyNumber(body.weight) && |files| > 0
                && pets == old(pets)[id := pets[id]]
                && pets[id].name == body.name.value && pets[id].species == body.species.value
                && pets[id].description == body.description
                && pets[id].age == body.age.value && pets[id].weight == body.weight.value
                && |pets[id].images| == |files|
                && (forall i :: 0 <= i < |files| ==> pets[id].images[i] == files[i].filename)
                && pets[id].(name := old(pets)[id].name, species := old(pets)[id].species,
                             description := old(pets)[id].description, age := old(pets)[id].age,
                             weight := old(pets)[id].weight, images := old(pets)[id].images)
                   == old(pets)[id]
                && StageOf(pets[id]) == StageOf(old(pets)[id])
      ensures r == Done || r == Fault || r == NotFound || r.Rejected?
    {
      var updatedData := EmptyPatch;
      if !isValid(id) { return Fault; }
      if id !in pets { return NotFound; }
      var pet := pets[id];
      if pet.owner.id != caller.id { return Rejected(NotOwner); }
      if !Truthy(body.name) { return Rejected(NameRequired); }
      updatedData := updatedData.(name := body.name);
      if !Truthy(body.species) { return Rejected(SpeciesRequired); }
      updatedData := updatedData.(species := body.species);
      if !Truthy(body.description) { return Rejected(DescriptionRequired); }
      updatedData := updatedData.(description := body.description);
      if !TruthyNumber(body.age) { return Rejected(AgeRequired); }
      updatedData := updatedData.(age := body.age);
      if !TruthyNumber(body.weight) { return Rejected(WeightRequired); }
      updatedData := updatedData.(weight := body.weight);
      if |files| == 0 { return Rejected(ImageRequired); }
      var names := CollectFilenames(files);
      updatedData := updatedData.(images := Some(names));
      var updated := Apply(pet, updatedData);
      WriteBack(pets, log, id, updated);
      pets := pets[id := updated];
      r := Done;
    }

    /** `schedule`: the owner cannot schedule a visit to their own pet, and
        the recorded adopter cannot schedule again; anyone else becomes the
        adopter, replacing an earlier one. Availability is neither checked
        nor changed. The answer discloses the owner's name and phone. */
    method Schedule(caller: User, id: Id) returns (r: Reply)
      requires Valid()
      modifies this
      ensures Valid() && log == old(log) && Settled(old(pets), pets)
      ensures !isValid(id) ==> r == Fault
      ensures isValid(id) && id !in old(pets) ==> r == NotFound
      ensures Owns(old(pets), id, caller) ==> r == Rejected(OwnPet)
      ensures id in old(pets) && !Owns(old(pets), id, caller) && Selects(AdoptedBy(caller.id), old(pets)[id])
              ==> r == Rejected(AlreadyScheduled)
      ensures r.Visit? <==>
                id in old(pets) && !Owns(old(pets), id, caller) && !Selects(AdoptedBy(caller.id), old(pets)[id])
      ensures r.Visit? ==>
                && id in old(pets)
                && pets == old(pets)[id := old(pets)[id].(adopter := Some(AdopterSnapshot(caller.id, caller.name, caller.image)))]
                && r.ownerName == old(pets)[id].owner.name && r.ownerPhone == old(pets)[id].owner.phone
                && StageOf(pets[id]) == (if StageOf(old(pets)[id]) == Concluded then Concluded else Scheduled)
      ensures !r.Visit? ==> pets == old(pets)
      ensures r.Visit? || r == Fault || r == NotFound || r.Rejected?
    {
      if !isValid(id) { return Fault; }
      if id !in pets { return NotFound; }
      var pet := pets[id];
      if pet.owner.id == caller.id { return Rejected(OwnPet); }
      if pet.adopter.Some? {
        if pet.adopter.value.id == caller.id { return Rejected(AlreadyScheduled); }
      }
      pet := pet.(adopter := Some(AdopterSnapshot(caller.id, caller.name, caller.image)));
      WriteBack(pets, log, id, pet);
      pets := pets[id := pet];
      r := Visit(pet.owner.name, pet.owner.phone);
    }

    /** `concludeAdoption`: only the owner concludes, and concluding makes the
        pet unavailable whatever its adopter is, or whether it has one. */
    method Conclude(caller: User, id: Id) returns (r: Reply)
      requires Valid()
      modifies this
      ensures Valid() && log == old(log) && Settled(old(pets), pets)
      ensures !isValid(id) ==> r == Fault
      ensures isValid(id) && id !in old(pets) ==> r == NotFound
      ensures id in old(pets) && old(pets)[id].owner.id != caller.id ==> r == Rejected(NotOwner)
      ensures r == Done <==> Owns(old(pets), id, caller)
      ensures r == Done ==> id in old(pets) && pets == old(pets)[id := old(pets)[id].(available := false)]
      ensures r == Done ==> StageOf(pets[id]) == Concluded
      ensures r != Done ==> pets == old(pets)
    {
      if !isValid(id) { return Fault; }
      if id !in pets { return NotFound; }
      var pet := pets[id];
      if pet.owner.id != caller.id { return Rejected(NotOwner); }
      pet := pet.(available := false);
      WriteBack(pets, log, id, pet);
      pets := pets[id := pet];
      r := Done;
    }
  }
}
