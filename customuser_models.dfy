/**
 * The user model of `core`: the upload-path helpers, the `CustomUser` row and
 * the two profile rows attached to it one-to-one.
 */
module CustomUserModels {
  import opened Wrappers

  type UserId = nat

  // ---------------------------------------------------------------------
  // Upload-path naming
  // ---------------------------------------------------------------------

  /** Index of the last occurrence of `ch` in `s`, or -1 (Python's `str.rfind`). */
  function LastIndexOf(s: string, ch: char): (r: int)
    ensures -1 <= r < |s|
    ensures r >= 0 ==> s[r] == ch
    ensures forall j :: r < j < |s| ==> s[j] != ch
    decreases |s|
  {
    if |s| == 0 then -1
    else if s[|s| - 1] == ch then |s| - 1
    else LastIndexOf(s[..|s| - 1], ch)
  }

  /** POSIX `os.path.basename`: everything after the last '/'. */
  function BaseName(path: string): (b: string)
    ensures '/' !in b
    ensures |b| <= |path| && path[|path| - |b|..] == b
    ensures |b| < |path| ==> path[|path| - |b| - 1] == '/'
  {
    var i := LastIndexOf(path, '/') + 1;
    assert forall k :: 0 <= k < |path[i..]| ==> path[i..][k] == path[i + k];
    path[i..]
  }

  /**
   * True when some '.' of `b` comes after a character that is not a dot:
   * exactly the case in which `os.path.splitext` splits off an extension
   * (leading dots, as in ".bashrc", never start one).
   */
  ghost predicate HasExtension(b: string)
  {
    exists i, j :: 0 <= i < j < |b| && b[i] != '.' && b[j] == '.'
  }

  /** `os.path.splitext` on a name without '/': (root, ext). */
  function SplitExt(b: string): (r: (string, string))
    ensures r.0 + r.1 == b
    ensures r.1 != [] <==> HasExtension(b)
    ensures r.1 != [] ==> r.1[0] == '.' && '.' !in r.1[1..]
  {
    var d := LastIndexOf(b, '.');
    if d > 0 && exists j :: 0 <= j < d && b[j] != '.' then
      assert b[..d] + b[d..] == b;
      assert forall k :: 0 <= k < |b[d..][1..]| ==> b[d..][1..][k] == b[d + 1 + k];
      (b[..d], b[d..])
    else
      (b, "")
  }

  lemma NotInConcat(ch: char, a: string, b: string)
    requires ch !in a + b
    ensures ch !in a && ch !in b
  {
    assert forall k :: 0 <= k < |a| ==> a[k] == (a + b)[k];
    assert forall k :: 0 <= k < |b| ==> b[k] == (a + b)[|a| + k];
  }

  /** `get_filename_ext`: splits the basename of a path into name and extension. */
  function GetFilenameExt(path: string): (r: (string, string))
    ensures r.0 + r.1 == BaseName(path)
    ensures '/' !in r.0 && '/' !in r.1
    ensures r.1 == [] || r.1[0] == '.'
  {
    var r := SplitExt(BaseName(path));
    NotInConcat('/', r.0, r.1);
    r
  }

  /** The decimal digit for `d`. */
  function Digit(d: nat): (c: char)
    requires d < 10
  {
    "0123456789"[d]
  }

  /** The value of a decimal digit character. */
  function DigitValue(c: char): (d: nat)
    requires '0' <= c <= '9'
  {
    (c as int) - ('0' as int)
  }

  ghost predicate IsDigits(s: string)
  {
    forall i :: 0 <= i < |s| ==> '0' <= s[i] <= '9'
  }

  /** `str(n)` for a natural number, as the f-string at line 18 formats it. */
  function DecimalString(n: nat): (s: string)
    ensures |s| >= 1 && IsDigits(s)
    ensures |s| > 1 ==> s[0] != '0'
  {
    if n < 10 then [Digit(n)] else DecimalString(n / 10) + [Digit(n % 10)]
  }

  /** Reads a string of decimal digits back into its value. */
  function ParseDecimal(s: string): (n: nat)
    requires IsDigits(s)
  {
    if |s| == 0 then 0 else ParseDecimal(s[..|s| - 1]) * 10 + DigitValue(s[|s| - 1])
  }

  lemma {:induction false} DecimalRoundTrip(n: nat)
    ensures ParseDecimal(DecimalString(n)) == n
  {
    var s := DecimalString(n);
    if n >= 10 {
      DecimalRoundTrip(n / 10);
      assert s[..|s| - 1] == DecimalString(n / 10);
    }
  }

  const ProfilePicsDir: string := "profile_pics/"

  /** The range of `randint` at line 16 (both ends included). */
  const MinUploadNumber: nat := 1
  const MaxUploadNumber: nat := 3910209312

  /**
   * `upload_image_path`: the stored name of an uploaded profile picture. The
   * random number drawn by `randint` is the parameter `n`.
   */
  function UploadImagePath(filename: string, n: nat): (p: string)
    requires MinUploadNumber <= n <= MaxUploadNumber
    ensures var ext := GetFilenameExt(filename).1;
      && |p| > |ProfilePicsDir| + |ext|
      && p[..|ProfilePicsDir|] == ProfilePicsDir
      && p[|p| - |ext|..] == ext
      && IsDigits(p[|ProfilePicsDir|..|p| - |ext|])
      && ParseDecimal(p[|ProfilePicsDir|..|p| - |ext|]) == n
      && p == ProfilePicsDir + DecimalString(n) + ext
  {
    var ext := GetFilenameExt(filename).1;
    var digits := DecimalString(n);
    DecimalRoundTrip(n);
    var p := ProfilePicsDir + digits + ext;
    assert p[|ProfilePicsDir|..|p| - |ext|] == digits;
    p
  }

  /** The original base name never reaches the stored path: only its extension does. */
  lemma UploadImagePathIgnoresName(f1: string, f2: string, n: nat)
    requires MinUploadNumber <= n <= MaxUploadNumber
    requires GetFilenameExt(f1).1 == GetFilenameExt(f2).1
    ensures UploadImagePath(f1, n) == UploadImagePath(f2, n)
  {
  }

  // ---------------------------------------------------------------------
  // Rows
  // ---------------------------------------------------------------------

  /** `CustomerProfile` (customer_models.py): the customer's one-to-one profile row. */
  datatype CustomerProfile = CustomerProfile(userType: string, storeAddress: Option<string>, storeUrl: Option<string>)

  /** `EmployeeProfile` (employee_models.py); `skills` is a JSON column, held as its text. */
  datatype EmployeeProfile = EmployeeProfile(skills: Option<string>, department: Option<string>, position: Option<string>)

  /** The columns a profile update may write on the user row. */
  datatype AccountFields = AccountFields(
    password: string,
    firstName: string,
    lastName: string,
    address: Option<string>,
    image: string,
    bio: Option<string>,
    phone: Option<string>)

  /** The columns a profile update never writes (read-only in the update serializers, or absent from them). */
  datatype FixedFields = FixedFields(
    username: string,
    email: string,
    gender: Option<string>,
    dateOfBirth: Option<string>,
    country: Option<string>,
    emailVerified: bool,
    isStaff: bool,
    avgRating: real)

  /** Default of the `avg_rating` column. */
  const DefaultAvgRating: real := 0.0
  /** Default of the `image` column. */
  const DefaultImage: string := "default.jpg"

  /**
   * A `CustomUser` row. `password` holds the hashed password. The reverse
   * one-to-one accessors `customerprofile` and `employeeprofile` are the two
   * optional profile fields.
   */
  class CustomUser {
    var username: string
    var email: string
    var password: string
    var firstName: string
    var lastName: string
    var gender: Option<string>
    var bio: Option<string>
    var dateOfBirth: Option<string>
    var phone: Option<string>
    var address: Option<string>
    var country: Option<string>
    var image: string
    var emailVerified: bool
    var isStaff: bool
    var avgRating: real
    var customerProfile: Option<CustomerProfile>
    var employeeProfile: Option<EmployeeProfile>

    function Account(): AccountFields
      reads this
    {
      AccountFields(password, firstName, lastName, address, image, bio, phone)
    }

    function Fixed(): FixedFields
      reads this
    {
      FixedFields(username, email, gender, dateOfBirth, country, emailVerified, isStaff, avgRating)
    }

    /** `CustomUser.objects.create(...)` with the columns a registration supplies; every other column takes its default. */
    constructor (username: string, email: string, password: string, address: Option<string>, country: Option<string>,
                 gender: Option<string>, phone: Option<string>, dateOfBirth: Option<string>, isStaff: bool)
      ensures this.username == username && this.email == email && this.password == password
      ensures this.address == address && this.country == country && this.gender == gender
      ensures this.phone == phone && this.dateOfBirth == dateOfBirth && this.isStaff == isStaff
      ensures firstName == "" && lastName == "" && bio == Some("") && image == DefaultImage
      ensures !emailVerified && avgRating == DefaultAvgRating
      ensures customerProfile == None && employeeProfile == None
    {
      this.username, this.email, this.password := username, email, password;
      this.address, this.country, this.gender := address, country, gender;
      this.phone, this.dateOfBirth, this.isStaff := phone, dateOfBirth, isStaff;
      firstName, lastName, bio, image := "", "", Some(""), DefaultImage;
      emailVerified, avgRating := false, DefaultAvgRating;
      customerProfile, employeeProfile := None, None;
    }
  }
}
