# Blood bank: registration rule, view models and records

This project models the non-UI core of an Android blood-donation app, in Dafny:

- **Records.** `User` (11 fields) with its `toMap` field-map encoding, and `Donation` (5 fields), both immutable. The record builders of the Donate and Edit Donation screens are modelled too (`UserModel.dfy`, `DonationModel.dfy`).
- **Registration.** The password rule `isValidPassword` is a whole-string regular expression. It is modelled as a pattern value with a matcher that follows the regex's lookahead and repetition meaning. It is then proved equal to a character-level rule. The Register button's guard order is modelled as a function returning an outcome (`Register.dfy`).
- **Gateways.** The `UserRepo` and `DonationRepo` interfaces are classes. Each has a *backend*: a datatype of functions that map the calls made so far plus the new call's arguments to a reply. A reply is either a value or a failure whose message may be absent, since Kotlin's `localizedMessage` is nullable. A gateway object's `calls` field stands for the history of requests the remote store has received through it, on which later replies may depend (`Repositories.dfy`).
- **View models.** `UserViewModel` and `DonationViewModel` are classes with the source's state fields. Each coroutine body is one synchronous method: set `loading`, call the gateway, store the result or the error, then clear `loading`. Every method is proved against a pure transition function (`UserStep`, `DonationStep`). A ghost history of completed operations keeps the invariant `State() == Run(history)`. Lemmas over whole histories say what each state flow holds after any sequence of operations.

Points where the code's behaviour may be unexpected:

- A failure whose exception has a null message sets `error` to null. So a failure can leave `error` absent, and it can even clear an earlier message (`SilentFailureClearsError`).
- The blood group is a free `String`, not an enumeration.
- `User` has no location, date-of-birth or age field.
- The user view model has no password-reset operation.

## Model

| member | source | states |
|---|---|---|
| `UserModel.DefaultUser` | app/src/main/java/com/example/bloodbank/model/Usermodel.kt:7-17 | the defaults: empty strings, not a donor, no image, no last donation date, zero donations, and the two timestamps taken from the clock readings given |
| `UserModel.ToMap` | app/src/main/java/com/example/bloodbank/model/Usermodel.kt:19-33 | the map has exactly the eleven field keys; the donor flag is stored under `isDonor` (and there is no `donor` key) |
| `UserModel.ToMapSize` | app/src/main/java/com/example/bloodbank/model/Usermodel.kt:20-32 | the eleven keys are distinct, so the map has eleven entries and no field overwrites another |
| `UserModel.ToMapRoundTrip` | app/src/main/java/com/example/bloodbank/model/Usermodel.kt:6-33 | every field can be read back under its key: rebuilding from the map gives the same user |
| `UserModel.ToMapInjective` | app/src/main/java/com/example/bloodbank/model/Usermodel.kt:19-33 | two users with equal maps are equal; the encoding loses nothing |
| `DonationModel.DefaultDonation` | app/src/main/java/com/example/bloodbank/model/Donation.kt:6-12 | id, owner, location and blood group default to empty; the date defaults to the given current time |
| `DonationModel.Donate` | app/src/main/java/com/example/bloodbank/Donate.kt:141-158 | a blank location is refused first, a missing current user second, and a record is built exactly when neither holds; it copies the owner's uid and blood group at that moment |
| `DonationModel.EditDonation` | app/src/main/java/com/example/bloodbank/view/EditDonationActivity.kt:88-91 | an edit sets location and date and keeps id, owner and blood group |
| `Register.IsValidPassword` | app/src/main/java/com/example/bloodbank/view/RegisterActivity.kt:52-57 | the regex, read with java.util.regex semantics, matches exactly when the password has at least six characters, all of them in `A-Za-z0-9@$!%*#?&`, with at least one letter, one digit and one special character |
| `Register.LooksAheadInAllowed` | app/src/main/java/com/example/bloodbank/view/RegisterActivity.kt:54 | in a string of password characters, a lookahead `(?=.*[K])` holds exactly when some character is in class K (`.` cannot stop on a line terminator there) |
| `Register.ValidPasswordExtends` | app/src/main/java/com/example/bloodbank/view/RegisterActivity.kt:54 | appending allowed characters to an accepted password keeps it accepted |
| `Register.PasswordAccepted` | app/src/main/java/com/example/bloodbank/view/RegisterActivity.kt:53-56 | `abc12!` (six characters with a letter, a digit and a special) is accepted |
| `Register.ShortPasswordRefused` | app/src/main/java/com/example/bloodbank/view/RegisterActivity.kt:54 | every password shorter than six characters is refused, whatever it contains |
| `Register.ForeignCharacterRefused` | app/src/main/java/com/example/bloodbank/view/RegisterActivity.kt:54 | every password containing a character outside `A-Za-z0-9@$!%*#?&` is refused, whatever else it contains |
| `Register.PasswordsWithForeignCharacter` | app/src/main/java/com/example/bloodbank/view/RegisterActivity.kt:54 | three specimens, with a space, an `_` and a non-ASCII letter, are refused although each has a letter, a digit and a special character |
| `Register.PasswordsLackingSomething` | app/src/main/java/com/example/bloodbank/view/RegisterActivity.kt:53-54 | four specimens of allowed characters are refused: one of five characters, and one each without a digit, without a special character and without a letter |
| `Register.RegisterUser` | app/src/main/java/com/example/bloodbank/view/RegisterActivity.kt:264-304 | a weak password is refused before a mismatch is looked at; a user is built iff the password is valid and equals the confirmation; the user is a donor with the form's name, email, phone and blood group, the fresh uid, and defaults elsewhere |
| `Register.WeakReportedBeforeMismatch` | app/src/main/java/com/example/bloodbank/view/RegisterActivity.kt:267-279 | every weak password is reported as weak, whatever the confirmation holds, so a mismatch is never reported for it |
| `Repositories.UserRepo.CreateUser` | app/src/main/java/com/example/bloodbank/repository/UserRepo.kt:6 | adds the request to the store's request history and returns the backend's reply for the requests made before it |
| `Repositories.UserRepo.GetUserById` | app/src/main/java/com/example/bloodbank/repository/UserRepo.kt:7 | as above; a missing record is a successful absent user |
| `Repositories.UserRepo.UpdateUser` | app/src/main/java/com/example/bloodbank/repository/UserRepo.kt:8 | adds the request to the store's request history and returns the backend's reply |
| `Repositories.UserRepo.DeleteUser` | app/src/main/java/com/example/bloodbank/repository/UserRepo.kt:9 | adds the request to the store's request history and returns the backend's reply |
| `Repositories.UserRepo.GetAllDonors` | app/src/main/java/com/example/bloodbank/repository/UserRepo.kt:10 | adds the request to the store's request history and returns the backend's list or failure |
| `Repositories.UserRepo.GetDonorsByBloodGroup` | app/src/main/java/com/example/bloodbank/repository/UserRepo.kt:11 | adds the request to the store's request history and returns the backend's list or failure |
| `Repositories.UserRepo.ResetPassword` | app/src/main/java/com/example/bloodbank/repository/UserRepo.kt:12 | adds the request to the store's request history and returns the backend's reply |
| `Repositories.DonationRepo.AddDonation` | app/src/main/java/com/example/bloodbank/repository/DonationRepo.kt:6 | adds the request to the store's request history and returns the backend's reply |
| `Repositories.DonationRepo.GetDonationsByUserId` | app/src/main/java/com/example/bloodbank/repository/DonationRepo.kt:7 | adds the request to the store's request history and returns the backend's list or failure |
| `Repositories.DonationRepo.DeleteDonation` | app/src/main/java/com/example/bloodbank/repository/DonationRepo.kt:8 | adds the request to the store's request history and returns the backend's reply |
| `Repositories.DonationRepo.UpdateDonation` | app/src/main/java/com/example/bloodbank/repository/DonationRepo.kt:9 | adds the request to the store's request history and returns the backend's reply |
| `UserViewModels.UserStep` | app/src/main/java/com/example/bloodbank/viewmodel/Userviewmodel.kt:27-110 | every launched operation ends with `loading` false; a failure stores its (possibly absent) message and leaves user and donors alone; a success never touches `error`; user operations never touch donors and donor queries never touch the user; create and update store the given user, get stores the reply (possibly absent), delete clears the user, donor queries store the returned list; `clearError` changes only `error` |
| `UserViewModels.RunUserFields` | app/src/main/java/com/example/bloodbank/viewmodel/Userviewmodel.kt:15-110 | from the initial state (no user, no donors, not loading, no error), after any history: `user` is the latest successful user operation's result, `donors` the latest successful query's list, `error` the latest failure's message unless cleared since, `loading` false |
| `UserViewModels.ErrorIsLatestFailure` | app/src/main/java/com/example/bloodbank/viewmodel/Userviewmodel.kt:27-110 | a present error is the message of a failure after which no operation failed and `clearError` was not called |
| `UserViewModels.SilentFailureClearsError` | app/src/main/java/com/example/bloodbank/viewmodel/Userviewmodel.kt:33-34 | every failure whose exception has no message leaves `error` absent, replacing any earlier message |
| `UserViewModels.UserViewModel.constructor` | app/src/main/java/com/example/bloodbank/viewmodel/Userviewmodel.kt:11-25 | starts with no user, no donors, not loading and no error, over the injected gateway |
| `UserViewModels.UserViewModel.CreateUser` | app/src/main/java/com/example/bloodbank/viewmodel/Userviewmodel.kt:27-39 | makes exactly one gateway call and moves the state by `UserStep` with that call's reply |
| `UserViewModels.UserViewModel.GetUserById` | app/src/main/java/com/example/bloodbank/viewmodel/Userviewmodel.kt:41-52 | makes exactly one gateway call and moves the state by `UserStep` with its reply |
| `UserViewModels.UserViewModel.UpdateUser` | app/src/main/java/com/example/bloodbank/viewmodel/Userviewmodel.kt:54-66 | makes exactly one gateway call and moves the state by `UserStep` with its reply |
| `UserViewModels.UserViewModel.DeleteUser` | app/src/main/java/com/example/bloodbank/viewmodel/Userviewmodel.kt:68-80 | makes exactly one gateway call and moves the state by `UserStep` with its reply |
| `UserViewModels.UserViewModel.LoadAllDonors` | app/src/main/java/com/example/bloodbank/viewmodel/Userviewmodel.kt:82-93 | makes exactly one gateway call and moves the state by `UserStep` with its reply |
| `UserViewModels.UserViewModel.LoadDonorsByBloodGroup` | app/src/main/java/com/example/bloodbank/viewmodel/Userviewmodel.kt:95-106 | makes exactly one gateway call and moves the state by `UserStep` with its reply |
| `UserViewModels.UserViewModel.ClearError` | app/src/main/java/com/example/bloodbank/viewmodel/Userviewmodel.kt:108-110 | sets `error` to absent, changes nothing else and calls no gateway |
| `DonationViewModels.DonationStep` | app/src/main/java/com/example/bloodbank/viewmodel/DonationViewModel.kt:27-90 | every launched operation ends with `loading` false; a failure stores its message and leaves `donations` and `donationAdded` alone; a success never touches `error`; a successful add raises `donationAdded` and never touches `donations`; list-storing operations never touch `donationAdded` and on success store the read list; the two resets each change only their own flow |
| `DonationViewModels.RunDonationFields` | app/src/main/java/com/example/bloodbank/viewmodel/DonationViewModel.kt:15-90 | from the initial state, after any history: `donations` is the latest successfully read list, `error` the latest uncleared failure's message, `loading` false |
| `DonationViewModels.DonationAddedFlag` | app/src/main/java/com/example/bloodbank/viewmodel/DonationViewModel.kt:27-90 | `donationAdded` is true exactly when some addition succeeded and no `resetDonationAddedState` came after it |
| `DonationViewModels.DonationViewModel.constructor` | app/src/main/java/com/example/bloodbank/viewmodel/DonationViewModel.kt:11-25 | starts not loading, with no error, the flag down and no donations |
| `DonationViewModels.DonationViewModel.AddDonation` | app/src/main/java/com/example/bloodbank/viewmodel/DonationViewModel.kt:27-39 | makes exactly one gateway call and moves the state by `DonationStep` with its reply |
| `DonationViewModels.DonationViewModel.GetDonationsByUserId` | app/src/main/java/com/example/bloodbank/viewmodel/DonationViewModel.kt:41-52 | makes exactly one gateway call and moves the state by `DonationStep` with its reply |
| `DonationViewModels.DonationViewModel.DeleteDonation` | app/src/main/java/com/example/bloodbank/viewmodel/DonationViewModel.kt:54-67 | calls delete first; only when it succeeds does it re-read the owner's list, with the delete already in the history; the state moves by the combined outcome |
| `DonationViewModels.DonationViewModel.UpdateDonation` | app/src/main/java/com/example/bloodbank/viewmodel/DonationViewModel.kt:69-82 | calls update first; only when it succeeds does it re-read the owner's list; the state moves by the combined outcome |
| `DonationViewModels.DonationViewModel.ClearError` | app/src/main/java/com/example/bloodbank/viewmodel/DonationViewModel.kt:84-86 | sets `error` to absent and changes nothing else |
| `DonationViewModels.DonationViewModel.ResetDonationAddedState` | app/src/main/java/com/example/bloodbank/viewmodel/DonationViewModel.kt:88-90 | lowers `donationAdded` and changes nothing else |

## Left out

- Register.IsValidPassword: reads `\d` as the ASCII digits `0-9` and `.` with the java.util.regex line terminators. On Android the pattern runs on ICU, where `\d` is every Unicode decimal digit (`\p{Nd}`), so a password such as `abc` + U+0661 U+0662 + `!` is accepted on a device and refused by the model. The Unicode digit table is not modelled.
- Coroutines and `StateFlow`: each `viewModelScope.launch` body runs to completion inside one method. Cancellation and overlapping operations racing on `loading` are not modelled. The moment when `loading` is true is not observable from outside a method.
- The Firebase gateway implementations (`UserRepoImpl.kt`, `DonationRepoImpl.kt`) are not part of this model. A backend is any function of the earlier calls, so the model does not capture the remote store's behaviour: round trips of create/get, the auth-then-data order of `deleteUser`, the `donor` key queried by `getAllDonors` (while `toMap` writes `isDonor`), and `getDonorsByBloodGroup` filtering on blood group only.
- `toMap` is not called anywhere in the app; Firebase writes records with `setValue(user)`. Firebase's own serialisation is not modelled.
- The password reset exists only as a gateway operation. No view model offers it, and the forgot-password screen is UI.
- Compose UI, navigation, Toasts and Intents are left out. So is the local SharedPreferences copy of the email and password written on registration (RegisterActivity.kt:289-291). `RegisterUser` returns the user it would hand to `createUser` and does not call it.
- `UUID.randomUUID` and `System.currentTimeMillis` are parameters (`newUid`, `newId`, `createdAt`, `updatedAt`, `date`, `now`). Date formatting for display is out.
- `DonationModel.IsWhitespace` lists Kotlin's whitespace characters from the Unicode separator categories plus the control characters Java counts. A future Unicode version adding a separator is not tracked.
- Kotlin `Int` and `Long` are bounded newtypes. The core does no arithmetic on them, so no overflow behaviour is modelled.
