# Petfy backend: pet registry, adoption lifecycle and user directory

This project models the request handlers of a pet-adoption backend.
Owners register pets. Other users schedule visits to them. The owner then
concludes the adoption. The model covers two in-memory stores:

- `PetController.PetStore`: a map from pet id to `Pet` record.
- `UserController.UserDirectory`: a map from user id to `User` record.

Each handler is a chain of guards followed by one write. The model keeps the
source's guards in the same order, with the same edge cases. Each guard
becomes a reply kind:

- `Rejected(reason)` is the source's status 422.
- `NotFound` is status 404.
- `Fault` stands for a handler that throws, so that no answer is sent and
  nothing is stored. In the pet handlers this is a Mongoose cast error on
  a malformed id. In `checkUser` it is `jwt.verify` refusing the token, or
  reading a property of the `null` user a valid token for a removed user
  finds.

Request fields and the authorization header are `Option` values read with
JavaScript truthiness:

- `Truthy` means a string was sent and is not empty.
- `TruthyNumber` means a number was sent and is not 0, so an age of 0 is
  refused but a negative age is accepted.

Comparing two `Option` values models `===` in `editUser`'s password check.

## Modules

- `Common` (`common.dfy`): `Option`, `Id`, truthiness, uploaded files and
  rejection reasons.
- `PetModel` (`pet_model.dfy`): the record of `models/Pet.js`.
  - `name` and `species` are required strings (`Conforms`, lines 5-12).
  - `description` is optional, so it is an `Option` (lines 13-15).
  - `age` and `weight` are numbers, modelled as `real` (lines 16-23).
  - `images` is a sequence of file names (lines 24-27).
  - `available` is a plain `bool` set only by the controllers (lines 28-30).
  - The owner and adopter are value snapshots, `OwnerSnapshot` and
    `AdopterSnapshot` (lines 31-32). They are copies, not references, so
    later user edits do not reach them.
  - `createdAt` is a logical creation stamp (line 34).
  - `StageOf` reads the lifecycle stage off a record: open, scheduled or
    concluded. `Advances` is the lifecycle order between stages: nothing
    leaves the concluded stage, and a scheduled pet never reopens.
- `PetController` (`pet_controller.dfy`): the handlers of
  `controllers/PetController.js`.
  - The store also keeps `log`, the ids in order of creation. A pet's
    `createdAt` is its position in `log`, so "sorted by `-createdAt`" means
    walking `log` backwards.
  - `Valid()` holds between requests. It says ids are never reused, every
    pet is filed under its own id, and every stored pet passed the create
    or update guards (`PetRegistered`).
  - Every mutating handler ensures `Settled(old(pets), pets)`: owners and
    creation stamps never change, a concluded pet never becomes available
    again, and a pet with an adopter keeps one. `SettledAdvances` turns
    this into the lifecycle order on stages.
- `UserController` (`user_controller.dfy`): the handlers of
  `controllers/UserController.js`.
  - `Valid()` includes `EmailsUnique`: no two users share an email.
    Register and edit both preserve it.
  - Password hashing is the `hash` function the directory is built with.
    `Compare` is the check of a plain password against a stored digest:
    `Compare(hash, p, d) == (hash(p) == d)`.
- `Scenarios` (`scenarios.dfy`): client methods that replay request
  sequences, using only the handlers' contracts. Three of them start from
  fresh stores; `ScheduleAfterConclusion` and `ConcludeTwice` start from
  any valid store.

## Model

| member | source | states |
|---|---|---|
| `PetModel.StageOf` | models/Pet.js:28-32 | The stage read off the two lifecycle fields: concluded exactly when `available` is false, open exactly when available with no adopter, scheduled exactly when available with one. The handlers' contracts and `SettledAdvances` state the transitions in these terms. |
| `PetController.SettledAdvances` | controllers/PetController.js:239-316 | Between any two states the handlers connect, each pet's stage moves forward in the lifecycle order (`Advances`), and a concluded pet stays concluded. |
| `PetController.CollectFilenames` | controllers/PetController.js:68-70 | The image list has one entry per uploaded file: the file's `filename`, in upload order. |
| `PetController.CollectSound` | controllers/PetController.js:80-106 | Every pet a listing returns is a stored pet, filed under its own id, which the filter selects and which was created before the cut-off. |
| `PetController.CollectComplete` | controllers/PetController.js:80-106 | Every stored pet that the filter selects and that was created before the cut-off appears in the listing. |
| `PetController.CollectSorted` | controllers/PetController.js:80-106 | Listed pets have strictly decreasing creation stamps: newest first, and no pet twice. |
| `PetController.CollectNewestFirst` | controllers/PetController.js:80-106 | A listing over the whole creation log is exactly the selected stored pets, each once, newest first. |
| `PetController.PetStore.GetAll` | controllers/PetController.js:80-86 | Returns exactly every stored pet, each once, newest first. |
| `PetController.PetStore.GetAllUserPets` | controllers/PetController.js:88-96 | Returns exactly the pets whose owner snapshot has the caller's id, newest first. |
| `PetController.PetStore.GetAllUserAdoptions` | controllers/PetController.js:98-106 | Returns exactly the pets whose adopter snapshot has the caller's id, newest first. |
| `PetController.PetStore.GetPetById` | controllers/PetController.js:108-124 | A malformed id is refused, a missing pet is not found, and otherwise the stored record is returned. Each outcome holds exactly under its condition. |
| `PetController.PetStore.Create` | controllers/PetController.js:10-78 | Name, species, age, weight and at least one image are required, in that order. A refusal stores nothing. Passing every check always creates the pet, and exactly one pet is added. The new pet has the given fields and is available. Its owner snapshot is the caller's id, name, image and phone. It has no adopter. Its images are the upload file names in order. Its stage is open. |
| `PetController.PetStore.Remove` | controllers/PetController.js:126-158 | A malformed id is refused and a missing pet is not found. A non-owner is refused and the pet stays. The owner removes exactly that pet, and no other pet changes. |
| `PetController.PetStore.Update` | controllers/PetController.js:160-237 | A malformed id faults, a missing pet is not found and a non-owner is refused. Name, species, description, age, weight and images are each required, in that order. A refusal changes nothing. Success replaces exactly those six fields. The `available` field of the request is ignored. The owner, adopter, availability and creation stamp are kept, so the stage is kept. |
| `PetController.PetStore.Schedule` | controllers/PetController.js:239-284 | The owner is refused, and so is a caller already recorded as adopter. Anyone else becomes the adopter `{id, name, image}`, replacing an earlier adopter. Availability is neither checked nor changed, and the owner snapshot is kept. The reply carries the owner's name and phone. The pet's stage becomes scheduled, or stays concluded when it was concluded. |
| `PetController.PetStore.Conclude` | controllers/PetController.js:286-316 | Only the owner concludes, and a non-owner leaves the pet unchanged. Concluding sets `available` to false and changes nothing else, whatever the adopter state, so the stage becomes concluded. |
| `UserController.UserDirectory.Register` | controllers/UserController.js:14-81 | Name, email, phone, password and confirmation are required, in that order. The password must equal the confirmation. The email must not be held by any user (exact match). A refusal adds no user. Success adds exactly one user, with the given fields and `hash(password)` as its credential, and issues a token for it. Email uniqueness is preserved. |
| `UserController.UserDirectory.Login` | controllers/UserController.js:83-117 | Email and password are required, and an unknown email is refused. A token is issued exactly when some user with that email has a digest the password verifies against. Otherwise the reply is a wrong-password refusal. |
| `UserController.UserDirectory.CheckUser` | controllers/UserController.js:119-134 | With a missing or empty authorization header the answer is `null`, and only then. With a non-empty header, the answer is the token's user without its password. That answer is given exactly when the token decodes to a stored user's id; otherwise the handler throws. |
| `UserController.UserDirectory.GetUserById` | controllers/UserController.js:136-146 | Returns the user without its password exactly when the id is well formed and stored. A well-formed unknown id gets status 422. A malformed id makes the query throw. |
| `UserController.UserDirectory.EditUser` | controllers/UserController.js:148-217 | Edits the caller the token resolves to; the path id plays no part. A missing name, email or phone saves nothing. So does an email held by another user. Keeping one's own email is allowed, so email uniqueness is preserved. Otherwise the name, email, phone and uploaded image are written. The password is replaced by its hash only when it equals the confirmation and is present. On a mismatch the reply is 422, but the other edits are written all the same. |
| `UserController.EditKeepsEmailsUnique` | controllers/UserController.js:174-182 | Replacing one user's record keeps emails unique when the new email is the user's own old one or is held by nobody. |
| `Scenarios.RegistrationAndLogin` | controllers/UserController.js:14-117 | After A registers, registering the same email again is refused as in use. A then logs in with the right password, and is refused with a different one whose hash differs. |
| `Scenarios.EditWithMismatchedPasswords` | controllers/UserController.js:191-208 | An edit whose password and confirmation differ answers 422. The new name is stored anyway, and the old password digest is kept. |
| `Scenarios.CreateAndSchedule` | controllers/PetController.js:239-284 | A new pet is available with no adopter. A visit scheduled by another user answers with the owner's name and phone and records that user as adopter. The same user's second attempt is refused. |
| `Scenarios.ScheduleAfterConclusion` | controllers/PetController.js:286-316 | After conclusion, another user can still schedule and replaces the adopter, and the pet stays unavailable. A non-owner's update is refused. |
| `Scenarios.ConcludeTwice` | controllers/PetController.js:301-311 | Concluding twice succeeds both times and leaves the same state as concluding once. |

## Where the code and the design description differ (the model follows the code)

- Ownership failures on update, remove and conclude answer 422 in the code.
  So does the owner scheduling their own pet, and a missing user in
  `getUserById`. They are not distinct "forbidden" or "not found" answers.
- `updatePet`, `schedule` and `concludeAdoption` do not check the id with
  `ObjectId.isValid`. A malformed id makes the lookup throw (`Fault`) rather
  than answer "not found".
- A second adopter replaces the first. Scheduling is also allowed after the
  adoption is concluded.
- Age and weight are only refused when missing or 0; negative values pass.
- On a password mismatch, `editUser` answers 422 but still writes the
  other edits.

## Left out

- Token issuing and verification are foreign calls and are not modelled.
  This covers `createUserToken`, `getToken`, `getUserByToken`, the
  `verifyToken` middleware and `jwt.verify` with its fixed secret. The
  caller is given as an argument: a `User` for the pet handlers, a stored
  user id for `EditUser`. `Token(id)` stands for the token issued for `id`.
  `CheckUser` takes the decoding as a function argument.
- bcrypt salting is not modelled, because the library is foreign. `hash` is
  a fixed function of the plain password, and its cost parameter is not
  modelled.
- `ObjectId.isValid` and the generation of new ObjectIds are external, so
  they come in as arguments. `isValid` is a function the stores are built
  with. Each `freshId` is required to be well formed and never used before.
- Database failures are not modelled: `save` or an update rejecting, and
  the 500 replies in the `try`/`catch` blocks.
- HTTP framing is not modelled: status codes beyond the reply kinds, JSON
  bodies, and the Portuguese message texts.
- After a first answer, `getPetById`, and `editUser` on a password
  mismatch, try to send a second one. The model gives the first answer and
  the stored state.
- File upload and storage are not modelled; only the stored file names are
  kept.
- `updatedAt` is not modelled, because no handler reads it.
- `createdAt` is a counter. Millisecond timestamps that tie, and the
  database's sort among ties, are not modelled.
- Form-data numbers are not modelled. In the model numbers arrive as
  numbers; a string "0" sent by a form is truthy in JavaScript. `NaN` is
  not modelled either.
- `null` and `undefined` are both `None`. So a `null` password with an
  absent confirmation counts as equal here, although `!==` tells them apart.
- `UserController.UserDirectory.EditUser`: requires the caller's id to name
  a stored user. In the source, `getUserByToken` returning `null` would make
  `editUser` throw, and that helper is not part of this model.
- The `User` schema is not part of this model, so a registered user's image
  starts as `None`. The body `editUser` sends back is not modelled.
- Concurrency is not modelled. The model is sequential, so two
  simultaneous `schedule` requests cannot race.
