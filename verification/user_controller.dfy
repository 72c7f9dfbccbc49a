/**
 * The user-settings endpoints of the portal: reading the logged-in user's
 * metadata, updating their AWS settings and acceptance of the terms and
 * conditions, and the guard in front of the CloudFormation script. The
 * logged-in user arrives as a possibly-null reference; HTTP and JSON
 * rendering are reduced to a `Response` value.
 */
module UserController {
  import opened Wrappers

  /** A JSON response: `generateJSONResponseMAV(false)` or a successful one carrying `data`. */
  datatype Response<T> = Failure | Success(data: T)

  /** The portal user: the fields these endpoints read or write. */
  class ANVGLUser {
    var id: Option<string>
    var email: Option<string>
    var fullName: Option<string>
    var arnExecution: Option<string>
    var arnStorage: Option<string>
    var awsAccount: Option<string>
    var awsSecret: Option<string>
    var acceptedTermsConditions: Option<int>
    /** What `isFullyConfigured()` answers for this user. */
    var fullyConfigured: bool

    constructor(id: Option<string>, email: Option<string>, fullyConfigured: bool)
      ensures this.id == id && this.email == email && this.fullyConfigured == fullyConfigured
      ensures fullName.None? && Settings() == UserSettings(None, None, None, None) && awsSecret.None?
    {
      this.id := id;
      this.email := email;
      fullName := None;
      arnExecution := None;
      arnStorage := None;
      awsAccount := None;
      awsSecret := None;
      acceptedTermsConditions := None;
      this.fullyConfigured := fullyConfigured;
    }

    /** The fields `setUser` may change. */
    function Settings(): UserSettings
      reads this
    {
      UserSettings(arnExecution, arnStorage, awsAccount, acceptedTermsConditions)
    }
  }

  /** The user DAO, reduced to the users it has been asked to save, in order. */
  class ANVGLUserDao {
    var saved: seq<ANVGLUser>

    constructor()
      ensures saved == []
    {
      saved := [];
    }

    /** `save(user)`: records one save of `user`. */
    method Save(user: ANVGLUser)
      modifies this`saved
      ensures saved == old(saved) + [user]
    {
      saved := saved + [user];
    }
  }

  /** The settings `setUser` may change. */
  datatype UserSettings = UserSettings(arnExecution: Option<string>, arnStorage: Option<string>,
                                       awsAccount: Option<string>, acceptedTermsConditions: Option<int>)

  /** The optional request parameters of `setUser`. */
  datatype SetUserRequest = SetUserRequest(arnExecution: Option<string>, arnStorage: Option<string>,
                                           awsAccount: Option<string>, acceptedTermsConditions: Option<int>)

  /** `StringUtils.isEmpty(s)`: null or of length zero. */
  predicate IsEmpty(s: Option<string>) {
    s.None? || |s.value| == 0
  }

  /** The request sets at least one field, so `setUser` saves the user. */
  predicate SetsAnything(request: SetUserRequest) {
    !IsEmpty(request.arnExecution) || !IsEmpty(request.arnStorage) ||
    request.acceptedTermsConditions.Some? || request.awsAccount.Some?
  }

  /**
   * The update rule of `setUser`: the two ARNs are replaced only by a
   * non-empty string; the accepted terms version and the AWS account are
   * replaced by any supplied value, the account even by an empty string.
   */
  function ApplyRequest(s: UserSettings, request: SetUserRequest): UserSettings
  {
    var arnExecution := if IsEmpty(request.arnExecution) then s.arnExecution else request.arnExecution;
    var arnStorage := if IsEmpty(request.arnStorage) then s.arnStorage else request.arnStorage;
    var acceptedTermsConditions :=
      if request.acceptedTermsConditions.Some? then request.acceptedTermsConditions else s.acceptedTermsConditions;
    var awsAccount := if request.awsAccount.Some? then request.awsAccount else s.awsAccount;
    UserSettings(arnExecution, arnStorage, awsAccount, acceptedTermsConditions)
  }

  /** A request that sets nothing leaves every setting as it was. */
  lemma ApplyNothing(s: UserSettings, request: SetUserRequest)
    requires !SetsAnything(request)
    ensures ApplyRequest(s, request) == s
  {
  }

  /** Applying the same request twice is the same as applying it once. */
  lemma ApplyIdempotent(s: UserSettings, request: SetUserRequest)
    ensures ApplyRequest(ApplyRequest(s, request), request) == ApplyRequest(s, request)
  {
  }

  /**
   * A field the request sets ends up with the requested value, whatever the
   * user had before; a field it does not set keeps the user's value.
   */
  lemma ApplyOverwrites(s1: UserSettings, s2: UserSettings, request: SetUserRequest)
    ensures !IsEmpty(request.arnExecution) ==>
            ApplyRequest(s1, request).arnExecution == ApplyRequest(s2, request).arnExecution == request.arnExecution
    ensures IsEmpty(request.arnExecution) ==> ApplyRequest(s1, request).arnExecution == s1.arnExecution
    ensures !IsEmpty(request.arnStorage) ==>
            ApplyRequest(s1, request).arnStorage == ApplyRequest(s2, request).arnStorage == request.arnStorage
    ensures IsEmpty(request.arnStorage) ==> ApplyRequest(s1, request).arnStorage == s1.arnStorage
    ensures request.awsAccount.Some? ==>
            ApplyRequest(s1, request).awsAccount == ApplyRequest(s2, request).awsAccount == request.awsAccount
    ensures request.awsAccount.None? ==> ApplyRequest(s1, request).awsAccount == s1.awsAccount
    ensures request.acceptedTermsConditions.Some? ==>
            ApplyRequest(s1, request).acceptedTermsConditions == ApplyRequest(s2, request).acceptedTermsConditions
            == request.acceptedTermsConditions
    ensures request.acceptedTermsConditions.None? ==>
            ApplyRequest(s1, request).acceptedTermsConditions == s1.acceptedTermsConditions
  {
  }

  /** An empty AWS account is stored, while an empty ARN is ignored. */
  lemma EmptyStringsScenario(s: UserSettings)
    requires s == UserSettings(Some("arn:exec"), Some("arn:store"), Some("123"), Some(1))
    ensures ApplyRequest(s, SetUserRequest(Some(""), None, Some(""), None)) ==
            UserSettings(Some("arn:exec"), Some("arn:store"), Some(""), Some(1))
    ensures SetsAnything(SetUserRequest(Some(""), None, Some(""), None))
    ensures !SetsAnything(SetUserRequest(Some(""), Some(""), None, None))
  {
  }

  /** The logged-in user, if any, as a frame. */
  function LoggedIn(user: ANVGLUser?): set<ANVGLUser> {
    if user == null then {} else {user}
  }

  /**
   * `setUser(user, ...)`: without a logged-in user it fails and touches
   * nothing. Otherwise it applies `ApplyRequest` to the user's settings, saves
   * the user exactly once when the request sets anything (and not at all
   * otherwise), and succeeds.
   */
  method SetUser(user: ANVGLUser?, userDao: ANVGLUserDao, request: SetUserRequest) returns (response: Response<()>)
    modifies LoggedIn(user)`arnExecution, LoggedIn(user)`arnStorage, LoggedIn(user)`awsAccount,
             LoggedIn(user)`acceptedTermsConditions, userDao`saved
    ensures user == null ==> response == Failure && userDao.saved == old(userDao.saved)
    ensures user != null ==> response == Success(())
    ensures user != null ==> user.Settings() == ApplyRequest(old(user.Settings()), request)
    ensures user != null ==>
            userDao.saved == old(userDao.saved) + (if SetsAnything(request) then [user] else [])
  {
    if user == null {
      return Failure;
    }
    var modified := false;
    if !IsEmpty(request.arnExecution) {
      user.arnExecution := request.arnExecution;
      modified := true;
    }
    if !IsEmpty(request.arnStorage) {
      user.arnStorage := request.arnStorage;
      modified := true;
    }
    if request.acceptedTermsConditions.Some? {
      user.acceptedTermsConditions := request.acceptedTermsConditions;
      modified := true;
    }
    if request.awsAccount.Some? {
      user.awsAccount := request.awsAccount;
      modified := true;
    }
    assert modified == SetsAnything(request);
    if modified {
      userDao.Save(user);
    }
    return Success(());
  }

  /** The metadata `getUser` returns: no AWS account and no AWS secret. */
  datatype UserView = UserView(id: Option<string>, email: Option<string>, fullName: Option<string>,
                               arnExecution: Option<string>, arnStorage: Option<string>,
                               acceptedTermsConditions: Option<int>)

  /** `getUser(user)`: fails without a logged-in user, otherwise returns their metadata. */
  function GetUser(user: ANVGLUser?): (r: Response<UserView>)
    reads user
    ensures r.Failure? <==> user == null
    ensures r.Success? ==>
            r.data.id == user.id && r.data.email == user.email && r.data.fullName == user.fullName &&
            r.data.arnExecution == user.arnExecution && r.data.arnStorage == user.arnStorage &&
            r.data.acceptedTermsConditions == user.acceptedTermsConditions
  {
    if user == null then Failure
    else Success(UserView(user.id, user.email, user.fullName, user.arnExecution, user.arnStorage,
                          user.acceptedTermsConditions))
  }

  /** The values `getCloudFormationScript` fills into its template. */
  datatype CloudFormationVars = CloudFormationVars(arnStorage: Option<string>, arnExecute: Option<string>,
                                                   awsSecret: Option<string>, awsAccount: Option<string>)

  /**
   * `getCloudFormationScript(user)`: fails without a logged-in user or for a
   * user who is not fully configured; otherwise renders the template from
   * the user's ARNs and AWS credentials (the rendering is not modelled).
   */
  function GetCloudFormationScript(user: ANVGLUser?): (r: Response<CloudFormationVars>)
    reads user
    ensures r.Failure? <==> user == null || !user.fullyConfigured
    ensures r.Success? ==>
            r.data == CloudFormationVars(user.arnStorage, user.arnExecution, user.awsSecret, user.awsAccount)
  {
    if user == null || !user.fullyConfigured then Failure
    else Success(CloudFormationVars(user.arnStorage, user.arnExecution, user.awsSecret, user.awsAccount))
  }

  /** After a successful `setUser`, `getUser` reports the updated ARNs and terms version. */
  method SetThenGet(user: ANVGLUser, userDao: ANVGLUserDao, request: SetUserRequest) returns (r: Response<UserView>)
    modifies user`arnExecution, user`arnStorage, user`awsAccount, user`acceptedTermsConditions, userDao`saved
    ensures r.Success?
    ensures r.data.arnExecution == ApplyRequest(old(user.Settings()), request).arnExecution
    ensures r.data.arnStorage == ApplyRequest(old(user.Settings()), request).arnStorage
    ensures r.data.acceptedTermsConditions == ApplyRequest(old(user.Settings()), request).acceptedTermsConditions
  {
    var response := SetUser(user, userDao, request);
    r := GetUser(user);
  }
}
