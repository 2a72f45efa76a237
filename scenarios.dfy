/** Clients of the two controllers that replay request sequences, on fresh
    stores or on any valid store, using nothing but the handlers' contracts. */
module Scenarios {
  import opened Common
  import opened PetModel
  import UserController
  import opened PetController

  /** A registers with "a@x.com"; registering that email again is refused;
      A logs in with the right password and is refused with another one. */
  method RegistrationAndLogin(isValid: Id -> bool, hash: string -> string, idA: Id, idB: Id)
    returns (first: UserController.Reply, second: UserController.Reply,
             login: UserController.Reply, wrong: UserController.Reply)
    requires isValid(idA) && isValid(idB) && idA != idB
    requires hash("p1") != hash("p2")
    ensures first == UserController.Token(idA)
    ensures second == UserController.Rejected(EmailInUse)
    ensures login == UserController.Token(idA)
    ensures wrong == UserController.Rejected(WrongPassword)
  {
    var directory := new UserController.UserDirectory(isValid, hash);
    var body := UserController.UserBody(Some("A"), Some("a@x.com"), Some("5511"), Some("p1"), Some("p1"));
    first := directory.Register(body, idA);
    assert UserController.EmailHeld(directory.users, "a@x.com") by {
      assert directory.users[idA].email == "a@x.com";
    }
    second := directory.Register(body.(name := Some("B")), idB);
    assert UserController.Compare(hash, "p1", directory.users[idA].password);
    login := directory.Login(Some("a@x.com"), Some("p1"));
    wrong := directory.Login(Some("a@x.com"), Some("p2"));
  }

  /** An edit whose password and confirmation differ answers 422, yet the
      new name is stored and the old password digest is kept. */
  method EditWithMismatchedPasswords(isValid: Id -> bool, hash: string -> string, idA: Id, pathId: Id)
    returns (edit: UserController.Reply, stored: UserController.User)
    requires isValid(idA)
    ensures edit == UserController.Rejected(PasswordsDiffer)
    ensures stored.name == "Ana" && stored.email == "a@x.com" && stored.password == hash("p1")
  {
    var directory := new UserController.UserDirectory(isValid, hash);
    var body := UserController.UserBody(Some("A"), Some("a@x.com"), Some("5511"), Some("p1"), Some("p1"));
    var registered := directory.Register(body, idA);
    var change := UserController.UserBody(Some("Ana"), Some("a@x.com"), Some("5511"), Some("new"), Some("other"));
    edit := directory.EditUser(idA, pathId, change, None);
    stored := directory.users[idA];
  }

  /** A creates Rex; B schedules a visit, learns A's name and phone, and
      cannot schedule again. */
  method CreateAndSchedule(isValid: Id -> bool, a: User, b: User, petId: Id)
    returns (created: Reply, scheduled: Reply, again: Reply, pet: Pet)
    requires isValid(petId) && a.id != b.id
    ensures created.PetCreated? && created.pet.available && created.pet.adopter.None?
    ensures created.pet.owner.id == a.id
    ensures scheduled == Visit(a.name, a.phone)
    ensures again == Rejected(AlreadyScheduled)
    ensures pet == created.pet.(adopter := Some(AdopterSnapshot(b.id, b.name, b.image)))
    ensures StageOf(pet) == Scheduled
  {
    var store := new PetStore(isValid);
    var rex := PetBody(Some("Rex"), Some("dog"), None, Some(3.0), Some(10.0), None);
    created := store.Create(a, rex, [UploadedFile("rex.jpg")], petId);
    scheduled := store.Schedule(b, petId);
    pet := store.pets[petId];
    again := store.Schedule(b, petId);
  }

  /** Once A concludes, C can still schedule a visit, replacing the earlier
      adopter, and the pet stays unavailable; C cannot update A's pet. */
  method ScheduleAfterConclusion(store: PetStore, a: User, c: User, id: Id)
    returns (concluded: Reply, late: Reply, intruder: Reply)
    requires store.Valid() && Owns(store.pets, id, a) && a.id != c.id
    requires !Selects(AdoptedBy(c.id), store.pets[id])
    modifies store
    ensures store.Valid()
    ensures concluded == Done
    ensures late == Visit(old(store.pets)[id].owner.name, old(store.pets)[id].owner.phone)
    ensures intruder == Rejected(NotOwner)
    ensures store.pets == old(store.pets)[id := old(store.pets)[id].(available := false,
                                             adopter := Some(AdopterSnapshot(c.id, c.name, c.image)))]
    ensures StageOf(store.pets[id]) == Concluded
  {
    concluded := store.Conclude(a, id);
    late := store.Schedule(c, id);
    var body := PetBody(Some("Max"), Some("dog"), Some("mine"), Some(3.0), Some(10.0), Some(true));
    intruder := store.Update(c, id, body, [UploadedFile("max.jpg")]);
  }

  /** Concluding twice answers success both times and leaves the same state as once. */
  method ConcludeTwice(store: PetStore, owner: User, id: Id) returns (first: Reply, second: Reply)
    requires store.Valid() && Owns(store.pets, id, owner)
    modifies store
    ensures store.Valid()
    ensures first == Done && second == Done
    ensures store.pets == old(store.pets)[id := old(store.pets)[id].(available := false)]
  {
    first := store.Conclude(owner, id);
    second := store.Conclude(owner, id);
  }
}
