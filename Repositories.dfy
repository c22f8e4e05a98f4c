/**
 * The two data gateways, `UserRepo` and `DonationRepo`, as abstract
 * services. A call either returns a value or throws; the exception's
 * `localizedMessage` may be null, so a failure carries an optional message.
 *
 * What the remote store answers is not modelled: a backend is any function
 * from the calls made so far and the arguments of the new call to its
 * reply, so it may depend on every earlier write. `calls` is not a log the
 * app keeps: it stands for the history of requests the remote store has
 * received through this gateway, on which its later replies may depend.
 */
module Repositories {

  import opened Wrappers
  import opened UserModel
  import opened DonationModel

  /** The result of a suspending gateway call: a value, or the exception's message (possibly null). */
  datatype Status<+T> = Ok(value: T) | Failed(message: Option<string>)

  datatype UserCall =
    | CreateUserCall(user: User)
    | GetUserByIdCall(uid: string)
    | UpdateUserCall(user: User)
    | DeleteUserCall(uid: string)
    | GetAllDonorsCall
    | GetDonorsByBloodGroupCall(bloodGroup: string)
    | ResetPasswordCall(email: string)

  /** One implementation of the `UserRepo` interface: a reply for each operation. */
  datatype UserBackend = UserBackend(
    createUser: (seq<UserCall>, User) -> Status<()>,
    getUserById: (seq<UserCall>, string) -> Status<Option<User>>,
    updateUser: (seq<UserCall>, User) -> Status<()>,
    deleteUser: (seq<UserCall>, string) -> Status<()>,
    getAllDonors: seq<UserCall> -> Status<seq<User>>,
    getDonorsByBloodGroup: (seq<UserCall>, string) -> Status<seq<User>>,
    resetPassword: (seq<UserCall>, string) -> Status<()>
  )

  class UserRepo {
    const backend: UserBackend
    /** The requests the remote store has received through this gateway, oldest first. */
    var calls: seq<UserCall>

    constructor (backend: UserBackend)
      ensures this.backend == backend && calls == []
    {
      this.backend := backend;
      calls := [];
    }

    method CreateUser(user: User) returns (r: Status<()>)
      modifies this
      ensures calls == old(calls) + [CreateUserCall(user)]
      ensures r == backend.createUser(old(calls), user)
    {
      r := backend.createUser(calls, user);
      calls := calls + [CreateUserCall(user)];
    }

    /** A missing record is a successful `None`, not a failure. */
    method GetUserById(uid: string) returns (r: Status<Option<User>>)
      modifies this
      ensures calls == old(calls) + [GetUserByIdCall(uid)]
      ensures r == backend.getUserById(old(calls), uid)
    {
      r := backend.getUserById(calls, uid);
      calls := calls + [GetUserByIdCall(uid)];
    }

    method UpdateUser(user: User) returns (r: Status<()>)
      modifies this
      ensures calls == old(calls) + [UpdateUserCall(user)]
      ensures r == backend.updateUser(old(calls), user)
    {
      r := backend.updateUser(calls, user);
      calls := calls + [UpdateUserCall(user)];
    }

    method DeleteUser(uid: string) returns (r: Status<()>)
      modifies this
      ensures calls == old(calls) + [DeleteUserCall(uid)]
      ensures r == backend.deleteUser(old(calls), uid)
    {
      r := backend.deleteUser(calls, uid);
      calls := calls + [DeleteUserCall(uid)];
    }

    method GetAllDonors() returns (r: Status<seq<User>>)
      modifies this
      ensures calls == old(calls) + [GetAllDonorsCall]
      ensures r == backend.getAllDonors(old(calls))
    {
      r := backend.getAllDonors(calls);
      calls := calls + [GetAllDonorsCall];
    }

    method GetDonorsByBloodGroup(bloodGroup: string) returns (r: Status<seq<User>>)
      modifies this
      ensures calls == old(calls) + [GetDonorsByBloodGroupCall(bloodGroup)]
      ensures r == backend.getDonorsByBloodGroup(old(calls), bloodGroup)
    {
      r := backend.getDonorsByBloodGroup(calls, bloodGroup);
      calls := calls + [GetDonorsByBloodGroupCall(bloodGroup)];
    }

    method ResetPassword(email: string) returns (r: Status<()>)
      modifies this
      ensures calls == old(calls) + [ResetPasswordCall(email)]
      ensures r == backend.resetPassword(old(calls), email)
    {
      r := backend.resetPassword(calls, email);
      calls := calls + [ResetPasswordCall(email)];
    }
  }

  datatype DonationCall =
    | AddDonationCall(donation: Donation)
    | GetDonationsByUserIdCall(userId: string)
    | DeleteDonationCall(donationId: string)
    | UpdateDonationCall(donation: Donation)

  /** One implementation of the `DonationRepo` interface. */
  datatype DonationBackend = DonationBackend(
    addDonation: (seq<DonationCall>, Donation) -> Status<()>,
    getDonationsByUserId: (seq<DonationCall>, string) -> Status<seq<Donation>>,
    deleteDonation: (seq<DonationCall>, string) -> Status<()>,
    updateDonation: (seq<DonationCall>, Donation) -> Status<()>
  )

  class DonationRepo {
    const backend: DonationBackend
    /** The requests the remote store has received through this gateway, oldest first. */
    var calls: seq<DonationCall>

    constructor (backend: DonationBackend)
      ensures this.backend == backend && calls == []
    {
      this.backend := backend;
      calls := [];
    }

    method AddDonation(donation: Donation) returns (r: Status<()>)
      modifies this
      ensures calls == old(calls) + [AddDonationCall(donation)]
      ensures r == backend.addDonation(old(calls), donation)
    {
      r := backend.addDonation(calls, donation);
      calls := calls + [AddDonationCall(donation)];
    }

    method GetDonationsByUserId(userId: string) returns (r: Status<seq<Donation>>)
      modifies this
      ensures calls == old(calls) + [GetDonationsByUserIdCall(userId)]
      ensures r == backend.getDonationsByUserId(old(calls), userId)
    {
      r := backend.getDonationsByUserId(calls, userId);
      calls := calls + [GetDonationsByUserIdCall(userId)];
    }

    method DeleteDonation(donationId: string) returns (r: Status<()>)
      modifies this
      ensures calls == old(calls) + [DeleteDonationCall(donationId)]
      ensures r == backend.deleteDonation(old(calls), donationId)
    {
      r := backend.deleteDonation(calls, donationId);
      calls := calls + [DeleteDonationCall(donationId)];
    }

    method UpdateDonation(donation: Donation) returns (r: Status<()>)
      modifies this
      ensures calls == old(calls) + [UpdateDonationCall(donation)]
      ensures r == backend.updateDonation(old(calls), donation)
    {
      r := backend.updateDonation(calls, donation);
      calls := calls + [UpdateDonationCall(donation)];
    }
  }
}
