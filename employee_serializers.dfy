/**
 * The employee registration and profile-update serializers. The user-row
 * part of the update is the customer serializer's, column for column.
 */
module EmployeeSerializers {
  import opened Wrappers
  import opened ValidatedData
  import opened CustomUserModels
  import opened CustomerSerializers

  /** `validated_data` of `EmployeeRegisterSerializer`; `department` is the nested `employeeprofile.department`. */
  datatype EmployeeRegistration = EmployeeRegistration(
    email: string,
    username: string,
    address: Option<string>,
    country: Option<string>,
    password: string,
    gender: Option<string>,
    phone: Option<string>,
    department: string,
    dateOfBirth: Option<string>)

  /**
   * `EmployeeRegisterSerializer.create`: the new user is always staff and is
   * stored with the hashed password; the department goes into a new employee
   * profile of that user.
   */
  method RegisterEmployee(data: EmployeeRegistration, hasher: string -> string) returns (user: CustomUser)
    requires |data.password| >= MinPasswordLength
    ensures fresh(user)
    ensures user.isStaff
    ensures user.password == hasher(data.password)
    ensures user.email == data.email && user.username == data.username
    ensures user.address == data.address && user.country == data.country && user.gender == data.gender
    ensures user.phone == data.phone && user.dateOfBirth == data.dateOfBirth
    ensures user.firstName == "" && user.lastName == "" && user.bio == Some("")
    ensures user.image == DefaultImage && !user.emailVerified
    ensures user.avgRating == DefaultAvgRating
    ensures user.employeeProfile == Some(EmployeeProfile(None, Some(data.department), None))
    ensures user.customerProfile == None
  {
    var hashed := hasher(data.password);
    user := new CustomUser(data.username, data.email, hashed, data.address, data.country,
                           data.gender, data.phone, data.dateOfBirth, true);
    user.employeeProfile := Some(EmployeeProfile(None, Some(data.department), None));
  }

  /** `validated_data` of `EmployeeUpdateSerializer`: the user-row entries and the nested profile fields. */
  datatype EmployeeUpdate = EmployeeUpdate(account: AccountPatch, skills: Field<string>, department: Field<string>, position: Field<string>)

  /** The profile row after `update`: skills, department and position are kept when absent and replaced otherwise. */
  function MergeEmployeeProfile(profile: EmployeeProfile, data: EmployeeUpdate): EmployeeProfile
  {
    EmployeeProfile(data.skills.PopOr(profile.skills), data.department.PopOr(profile.department), data.position.PopOr(profile.position))
  }

  lemma MergeEmployeeProfileKeepsAbsent(profile: EmployeeProfile, data: EmployeeUpdate)
    ensures var q := MergeEmployeeProfile(profile, data);
      && (data.skills.Absent? ==> q.skills == profile.skills)
      && (data.skills.Given? ==> q.skills == Some(data.skills.value))
      && (data.department.Absent? ==> q.department == profile.department)
      && (data.department.Given? ==> q.department == Some(data.department.value))
      && (data.position.Absent? ==> q.position == profile.position)
      && (data.position.Given? ==> q.position == Some(data.position.value))
  {
  }

  /**
   * `EmployeeUpdateSerializer.update`: the profile entries are read first,
   * then the user row is merged and saved, then the profile row.
   */
  method UpdateEmployee(instance: CustomUser, data: EmployeeUpdate, hasher: string -> string, uploadNumber: nat)
    returns (r: Outcome<UpdateError>)
    requires PasswordAccepted(data.account.password)
    requires MinUploadNumber <= uploadNumber <= MaxUploadNumber
    modifies instance
    ensures r.Fail? <==> old(instance.employeeProfile).None?
    ensures r.Fail? ==> instance.Account() == old(instance.Account()) && instance.employeeProfile == None
    ensures r.Pass? ==> instance.Account() == MergeAccount(old(instance.Account()), data.account, hasher, uploadNumber)
    ensures r.Pass? ==> instance.employeeProfile == Some(MergeEmployeeProfile(old(instance.employeeProfile).value, data))
    ensures instance.Fixed() == old(instance.Fixed())
    ensures instance.customerProfile == old(instance.customerProfile)
  {
    if instance.employeeProfile.None? {
      return Fail(MissingProfile);
    }
    var profile := instance.employeeProfile.value;
    var skills := data.skills.PopOr(profile.skills);
    var department := data.department.PopOr(profile.department);
    var position := data.position.PopOr(profile.position);
    AssignAccount(instance, data.account, hasher, uploadNumber);
    instance.employeeProfile := Some(EmployeeProfile(skills, department, position));
    r := Pass;
  }
}
