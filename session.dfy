/** The mock sign-in session (`src/store/useUserStore.ts`). Each action raises
    `isLoading` and clears `error`, waits, then settles; here the wait is gone and each
    action is one step from one settled state to the next. `Date.now()` is a parameter. */
module Session {
  import opened Common
  import opened Types

  const MockUser: User := User(
    "user1",
    "John Doe",
    "john.doe@example.com",
    Some("+1234567890"),
    Some(Address("addr-001", "123 Main St", "New York", "NY", "10001", "USA", true)),
    Some("https://randomuser.me/api/portraits/men/1.jpg"))

  const MockPassword: string := "password"

  const InvalidCredentials: string := "Invalid email or password"
  const UpdateProfileFailed: string := "Failed to update profile. Please try again."
  const UpdateAddressFailed: string := "Failed to update address. Please try again."
  const ResetPasswordFailed: string := "Failed to reset password. Please try again."

  /** `Partial<User>`: a field is present (Some) or absent (None). */
  datatype UserPatch = UserPatch(
    id: Option<string>,
    name: Option<string>,
    email: Option<string>,
    phone: Option<string>,
    address: Option<Address>,
    avatar: Option<string>)

  const NoChanges: UserPatch := UserPatch(None, None, None, None, None, None)

  function Pick<T>(patched: Option<T>, kept: T): T {
    if patched.Some? then patched.value else kept
  }

  function PickOptional<T>(patched: Option<T>, kept: Option<T>): Option<T> {
    if patched.Some? then patched else kept
  }

  /** `{ ...user, ...userData }`: the fields present in the patch win, and the user's
      own values stay where the patch has none. */
  function Merge(user: User, patch: UserPatch): (u: User)
    ensures patch.id.Some? ==> u.id == patch.id.value
    ensures patch.id.None? ==> u.id == user.id
    ensures patch.name.Some? ==> u.name == patch.name.value
    ensures patch.name.None? ==> u.name == user.name
    ensures patch.email.Some? ==> u.email == patch.email.value
    ensures patch.email.None? ==> u.email == user.email
    ensures patch.phone.Some? ==> u.phone == patch.phone
    ensures patch.phone.None? ==> u.phone == user.phone
    ensures patch.address.Some? ==> u.address == patch.address
    ensures patch.address.None? ==> u.address == user.address
    ensures patch.avatar.Some? ==> u.avatar == patch.avatar
    ensures patch.avatar.None? ==> u.avatar == user.avatar
  {
    User(
      Pick(patch.id, user.id),
      Pick(patch.name, user.name),
      Pick(patch.email, user.email),
      PickOptional(patch.phone, user.phone),
      PickOptional(patch.address, user.address),
      PickOptional(patch.avatar, user.avatar))
  }

  /** A patch with no fields keeps the user as is, and applying a patch twice is
      applying it once. */
  lemma MergeIdentityAndIdempotence(user: User, patch: UserPatch)
    ensures Merge(user, NoChanges) == user
    ensures Merge(Merge(user, patch), patch) == Merge(user, patch)
  {
  }

  /** `updateAddress` is `updateProfile` with a patch holding only the address. */
  lemma AddressUpdateIsAddressPatch(user: User, address: Address)
    ensures user.(address := Some(address)) == Merge(user, NoChanges.(address := Some(address)))
  {
  }

  /** The account `register` creates: the mock user renamed, with the given email and
      the id `"user" + Date.now()`. */
  function RegisteredUser(name: string, email: string, now: nat): (u: User)
    ensures u.name == name && u.email == email
    ensures |u.id| > 4 && u.id[..4] == "user" && u.id[4..] == Decimal(now)
    ensures u.phone == MockUser.phone && u.address == MockUser.address && u.avatar == MockUser.avatar
  {
    MockUser.(id := "user" + Decimal(now), name := name, email := email)
  }

  class UserStore {
    var user: Option<User>
    var isAuthenticated: bool
    var isLoading: bool
    var error: Option<string>

    /** Between actions nothing is loading, and the session is authenticated exactly
        when a user is present. */
    ghost predicate Valid()
      reads this
    {
      !isLoading && (isAuthenticated <==> user.Some?)
    }

    constructor ()
      ensures Valid()
      ensures user == None && !isAuthenticated && !isLoading && error == None
    {
      user, isAuthenticated, isLoading, error := None, false, false, None;
    }

    /** `login`: only the mock account's email with the fixed password signs in. */
    method Login(email: string, password: string)
      requires Valid()
      modifies this
      ensures Valid()
      ensures email == MockUser.email && password == MockPassword ==>
        user == Some(MockUser) && isAuthenticated && error == None
      ensures email != MockUser.email || password != MockPassword ==>
        user == old(user) && isAuthenticated == old(isAuthenticated) && error == Some(InvalidCredentials)
    {
      isLoading, error := true, None;
      if email == MockUser.email && password == MockPassword {
        user, isAuthenticated, isLoading := Some(MockUser), true, false;
      } else {
        error, isLoading := Some(InvalidCredentials), false;
      }
    }

    /** `register`: the password is not used. */
    method Register(name: string, email: string, password: string, now: nat)
      requires Valid()
      modifies this
      ensures Valid()
      ensures user == Some(RegisteredUser(name, email, now)) && isAuthenticated && error == None
    {
      isLoading, error := true, None;
      user, isAuthenticated, isLoading := Some(RegisteredUser(name, email, now)), true, false;
    }

    /** `logout`: back to the initial state, whatever came before. */
    method Logout()
      modifies this
      ensures Valid()
      ensures user == None && !isAuthenticated && !isLoading && error == None
    {
      user, isAuthenticated, isLoading, error := None, false, false, None;
    }

    method UpdateProfile(userData: UserPatch)
      requires Valid()
      modifies this
      ensures Valid()
      ensures isAuthenticated == old(isAuthenticated)
      ensures old(user).None? ==> user == None && error == Some(UpdateProfileFailed)
      ensures old(user).Some? ==> user == Some(Merge(old(user).value, userData)) && error == None
    {
      isLoading, error := true, None;
      if user.None? {
        error, isLoading := Some(UpdateProfileFailed), false;
      } else {
        var updated := Merge(user.value, userData);
        user, isLoading := Some(updated), false;
      }
    }

    method UpdateAddress(address: Address)
      requires Valid()
      modifies this
      ensures Valid()
      ensures isAuthenticated == old(isAuthenticated)
      ensures old(user).None? ==> user == None && error == Some(UpdateAddressFailed)
      ensures old(user).Some? ==> user == Some(old(user).value.(address := Some(address))) && error == None
    {
      isLoading, error := true, None;
      if user.None? {
        error, isLoading := Some(UpdateAddressFailed), false;
      } else {
        var updated := user.value.(address := Some(address));
        user, isLoading := Some(updated), false;
      }
    }

    /** `resetPassword`: never touches the session; fails for any email but the mock one. */
    method ResetPassword(email: string)
      requires Valid()
      modifies this
      ensures Valid()
      ensures user == old(user) && isAuthenticated == old(isAuthenticated)
      ensures error.Some? <==> email != MockUser.email
      ensures error.Some? ==> error == Some(ResetPasswordFailed)
    {
      isLoading, error := true, None;
      if email == MockUser.email {
        isLoading := false;
        return;
      }
      error, isLoading := Some(ResetPasswordFailed), false;
    }

    method ClearError()
      modifies this
      ensures error == None
      ensures user == old(user) && isAuthenticated == old(isAuthenticated) && isLoading == old(isLoading)
    {
      error := None;
    }
  }
}
