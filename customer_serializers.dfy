/**
 * The customer registration and profile-update serializers: which fields a
 * partial update keeps, which it overwrites, and how the password is stored.
 */
module CustomerSerializers {
  import opened Wrappers
  import opened ValidatedData
  import opened CustomUserModels

  /** `min_length` of the password fields. */
  const MinPasswordLength: nat := 8

  /** Why the password field is refused. */
  datatype PasswordError = PasswordRequired | PasswordTooShort

  /**
   * The password field's own validation (`required`, `min_length=8`): the
   * registration serializers require it, the update serializers do not.
   */
  function ValidatePassword(p: Field<string>, required: bool): (r: Result<Field<string>, PasswordError>)
    ensures r.Success? <==> (required ==> p.Given?) && (p.Given? ==> |p.value| >= MinPasswordLength)
    ensures r.Success? ==> r.value == p
  {
    match p
    case Absent => if required then Failure(PasswordRequired) else Success(p)
    case Given(v) => if |v| < MinPasswordLength then Failure(PasswordTooShort) else Success(p)
  }

  /** A password that passed the field's validation. */
  predicate PasswordAccepted(p: Field<string>)
  {
    ValidatePassword(p, false).Success?
  }

  /** The user-row entries of an update's `validated_data`, shared by the customer and employee update serializers. */
  datatype AccountPatch = AccountPatch(
    password: Field<string>,
    firstName: Field<string>,
    lastName: Field<string>,
    address: Field<Option<string>>,
    image: Field<string>,
    bio: Field<string>,
    phone: Field<Option<string>>)

  /**
   * The user-row part of `update`: the password is hashed in only when given;
   * first name, last name, address and image keep their value when absent;
   * bio and phone are always written, with null when absent. A given image
   * is a fresh upload: saving the row stores it under the `upload_to` name
   * drawn with the random number `n`.
   */
  function MergeAccount(f: AccountFields, p: AccountPatch, hasher: string -> string, n: nat): AccountFields
    requires MinUploadNumber <= n <= MaxUploadNumber
  {
    AccountFields(
      if p.password.Given? then hasher(p.password.value) else f.password,
      p.firstName.GetOr(f.firstName),
      p.lastName.GetOr(f.lastName),
      p.address.GetOr(f.address),
      if p.image.Given? then UploadImagePath(p.image.value, n) else f.image,
      p.bio.GetNullable(),
      p.phone.GetOr(None))
  }

  /** Each kept field changes exactly when the update supplies it. */
  lemma MergeAccountKeepsAbsent(f: AccountFields, p: AccountPatch, hasher: string -> string, n: nat)
    requires MinUploadNumber <= n <= MaxUploadNumber
    ensures var g := MergeAccount(f, p, hasher, n);
      && (p.password.Absent? ==> g.password == f.password)
      && (p.password.Given? ==> g.password == hasher(p.password.value))
      && (p.firstName.Absent? ==> g.firstName == f.firstName)
      && (p.firstName.Given? ==> g.firstName == p.firstName.value)
      && (p.lastName.Absent? ==> g.lastName == f.lastName)
      && (p.lastName.Given? ==> g.lastName == p.lastName.value)
      && (p.address.Absent? ==> g.address == f.address)
      && (p.address.Given? ==> g.address == p.address.value)
      && (p.image.Absent? ==> g.image == f.image)
      && (p.image.Given? ==> g.image == UploadImagePath(p.image.value, n))
  {
  }

  /** Bio and phone do not depend on the old row: an absent entry writes null. */
  lemma MergeAccountOverwritesBioAndPhone(f: AccountFields, p: AccountPatch, hasher: string -> string, n: nat)
    requires MinUploadNumber <= n <= MaxUploadNumber
    ensures var g := MergeAccount(f, p, hasher, n);
      && (p.bio.Absent? ==> g.bio == None)
      && (p.bio.Given? ==> g.bio == Some(p.bio.value))
      && (p.phone.Absent? ==> g.phone == None)
      && (p.phone.Given? ==> g.phone == p.phone.value)
  {
  }

  /**
   * Sending the same update twice, with upload numbers `n1` and `n2`, leaves
   * every column but the password and the image as sending it once. A given
   * password is hashed again, and `make_password` salts each hash afresh; a
   * given image is uploaded again under a newly drawn number, with the same
   * directory and extension. An update with neither is idempotent outright.
   */
  lemma MergeAccountIdempotent(f: AccountFields, p: AccountPatch, hasher: string -> string, n1: nat, n2: nat)
    requires MinUploadNumber <= n1 <= MaxUploadNumber && MinUploadNumber <= n2 <= MaxUploadNumber
    ensures var once := MergeAccount(f, p, hasher, n1);
      var twice := MergeAccount(once, p, hasher, n2);
      twice == once.(password := twice.password, image := twice.image)
    ensures p.image.Given? ==>
      MergeAccount(MergeAccount(f, p, hasher, n1), p, hasher, n2).image == MergeAccount(f, p, hasher, n2).image
    ensures p.password.Absent? && p.image.Absent? ==>
      MergeAccount(MergeAccount(f, p, hasher, n1), p, hasher, n2) == MergeAccount(f, p, hasher, n1)
  {
  }

  /**
   * The user-row assignments of `update` and the upload naming done by
   * `instance.save()`: each of the seven columns gets its merged value; the
   * other columns and the profiles are not touched.
   */
  method AssignAccount(instance: CustomUser, p: AccountPatch, hasher: string -> string, uploadNumber: nat)
    requires PasswordAccepted(p.password)
    requires MinUploadNumber <= uploadNumber <= MaxUploadNumber
    modifies instance
    ensures instance.Account() == MergeAccount(old(instance.Account()), p, hasher, uploadNumber)
    ensures instance.Fixed() == old(instance.Fixed())
    ensures instance.customerProfile == old(instance.customerProfile)
    ensures instance.employeeProfile == old(instance.employeeProfile)
  {
    var g := MergeAccount(instance.Account(), p, hasher, uploadNumber);
    instance.password, instance.firstName, instance.lastName, instance.address := g.password, g.firstName, g.lastName, g.address;
    instance.image, instance.bio, instance.phone := g.image, g.bio, g.phone;
  }

  /** `validated_data` of `CustomerRegisterSerializer`; `userType` is the nested `customerprofile.user_type`. */
  datatype CustomerRegistration = CustomerRegistration(
    email: string,
    username: string,
    password: string,
    address: Option<string>,
    country: Option<string>,
    gender: Option<string>,
    phone: Option<string>,
    userType: string,
    dateOfBirth: Option<string>)

  /**
   * `CustomerRegisterSerializer.create`: the nested profile data is popped
   * and becomes a new customer profile of the new user, who is stored with the
   * hashed password.
   */
  method RegisterCustomer(data: CustomerRegistration, hasher: string -> string) returns (user: CustomUser)
    requires |data.password| >= MinPasswordLength
    ensures fresh(user)
    ensures user.password == hasher(data.password)
    ensures user.email == data.email && user.username == data.username
    ensures user.address == data.address && user.country == data.country && user.gender == data.gender
    ensures user.phone == data.phone && user.dateOfBirth == data.dateOfBirth
    ensures user.firstName == "" && user.lastName == "" && user.bio == Some("")
    ensures user.image == DefaultImage && !user.emailVerified
    ensures !user.isStaff && user.avgRating == DefaultAvgRating
    ensures user.customerProfile == Some(CustomerProfile(data.userType, None, None))
    ensures user.employeeProfile == None
  {
    var hashed := hasher(data.password);
    user := new CustomUser(data.username, data.email, hashed, data.address, data.country,
                           data.gender, data.phone, data.dateOfBirth, false);
    user.customerProfile := Some(CustomerProfile(data.userType, None, None));
  }

  /** `validated_data` of `CustomerUpdateSerializer`: the user-row entries and the nested store fields. */
  datatype CustomerUpdate = CustomerUpdate(account: AccountPatch, storeAddress: Field<string>, storeUrl: Field<string>)

  /** The profile row after `update`: store address and URL are kept when absent and replaced otherwise. */
  function MergeCustomerProfile(profile: CustomerProfile, data: CustomerUpdate): (r: CustomerProfile)
  {
    profile.(storeAddress := data.storeAddress.PopOr(profile.storeAddress),
             storeUrl := data.storeUrl.PopOr(profile.storeUrl))
  }

  lemma MergeCustomerProfileKeepsAbsent(profile: CustomerProfile, data: CustomerUpdate)
    ensures var q := MergeCustomerProfile(profile, data);
      && q.userType == profile.userType
      && (data.storeAddress.Absent? ==> q.storeAddress == profile.storeAddress)
      && (data.storeAddress.Given? ==> q.storeAddress == Some(data.storeAddress.value))
      && (data.storeUrl.Absent? ==> q.storeUrl == profile.storeUrl)
      && (data.storeUrl.Given? ==> q.storeUrl == Some(data.storeUrl.value))
  {
  }

  /** The user has no customer profile: reading `instance.customerprofile` raises before anything is written. */
  datatype UpdateError = MissingProfile

  /**
   * `CustomerUpdateSerializer.update`: the user row is merged and saved, then
   * the profile row. Read-only columns never change.
   */
  method UpdateCustomer(instance: CustomUser, data: CustomerUpdate, hasher: string -> string, uploadNumber: nat)
    returns (r: Outcome<UpdateError>)
    requires PasswordAccepted(data.account.password)
    requires MinUploadNumber <= uploadNumber <= MaxUploadNumber
    modifies instance
    ensures r.Fail? <==> old(instance.customerProfile).None?
    ensures r.Fail? ==> instance.Account() == old(instance.Account()) && instance.customerProfile == None
    ensures r.Pass? ==> instance.Account() == MergeAccount(old(instance.Account()), data.account, hasher, uploadNumber)
    ensures r.Pass? ==> instance.customerProfile == Some(MergeCustomerProfile(old(instance.customerProfile).value, data))
    ensures instance.Fixed() == old(instance.Fixed())
    ensures instance.employeeProfile == old(instance.employeeProfile)
  {
    if instance.customerProfile.None? {
      return Fail(MissingProfile);
    }
    var profile := instance.customerProfile.value;
    var storeAddress := data.storeAddress.PopOr(profile.storeAddress);
    var storeUrl := data.storeUrl.PopOr(profile.storeUrl);
    AssignAccount(instance, data.account, hasher, uploadNumber);
    instance.customerProfile := Some(profile.(storeAddress := storeAddress, storeUrl := storeUrl));
    r := Pass;
  }
}
