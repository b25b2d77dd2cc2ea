/** authSlice.ts: the signed-in user and the OTP login flow. */
module AuthSlice {
  import opened Wrappers

  datatype User = User(id: string, name: string, email: string, role: string, isVerified: bool, token: Option<string>)

  /** What the login endpoint answers: either a user (no OTP needed) or an
      announcement that a one-time password was sent. A missing `otpSent`
      field reads as false. */
  datatype LoginResponse = LoginResponse(otpSent: bool, user: User)

  class Auth {
    var user: Option<User>
    var otpSent: bool
    var loading: bool
    var error: Option<string>
    var success: bool

    /** `initialState`, with the user restored from browser storage given as
        a parameter. */
    constructor (stored: Option<User>)
      ensures user == stored && !otpSent && !loading && error == None && !success
    {
      user, otpSent, loading, error, success := stored, false, false, None, false;
    }

    method ClearError()
      modifies this
      ensures error == None
      ensures user == old(user) && otpSent == old(otpSent) && loading == old(loading) && success == old(success)
    {
      error := None;
    }

    method ResetSuccess()
      modifies this
      ensures !success
      ensures user == old(user) && otpSent == old(otpSent) && loading == old(loading) && error == old(error)
    {
      success := false;
    }

    /** Every `.pending` case (login, verifyOtp, register, resendOtp). */
    method Pending()
      modifies this
      ensures loading && error == None
      ensures user == old(user) && otpSent == old(otpSent) && success == old(success)
    {
      loading := true;
      error := None;
    }

    /** Every `.rejected` case. */
    method Rejected(message: string)
      modifies this
      ensures !loading && error == Some(message)
      ensures user == old(user) && otpSent == old(otpSent) && success == old(success)
    {
      loading := false;
      error := Some(message);
    }

    /** `login.fulfilled`: the user is signed in only when no OTP was sent. */
    method LoginFulfilled(response: LoginResponse)
      modifies this
      ensures !loading && otpSent == response.otpSent
      ensures user == if response.otpSent then old(user) else Some(response.user)
      ensures error == old(error) && success == old(success)
    {
      loading := false;
      otpSent := response.otpSent;
      if !response.otpSent {
        user := Some(response.user);
      }
    }

    /** `verifyOtp.fulfilled`: the verified user is signed in. */
    method VerifyOtpFulfilled(verified: User)
      modifies this
      ensures !loading && user == Some(verified) && !otpSent && success
      ensures error == old(error)
    {
      loading := false;
      user := Some(verified);
      otpSent := false;
      success := true;
    }

    /** `register.fulfilled`: registration never signs a user in. */
    method RegisterFulfilled(otpWasSent: bool)
      modifies this
      ensures !loading && otpSent == otpWasSent && success
      ensures user == old(user) && error == old(error)
    {
      loading := false;
      otpSent := otpWasSent;
      success := true;
    }

    /** `resendOtp.fulfilled` */
    method ResendOtpFulfilled()
      modifies this
      ensures !loading && otpSent && success
      ensures user == old(user) && error == old(error)
    {
      loading := false;
      otpSent := true;
      success := true;
    }

    /** `logout.fulfilled`: signs out; loading, error and success stay. */
    method LogoutFulfilled()
      modifies this
      ensures user == None && !otpSent
      ensures loading == old(loading) && error == old(error) && success == old(success)
    {
      user := None;
      otpSent := false;
    }
  }

  /** Reference view of the flow: a user is signed in after a fulfilled login
      exactly when the server did not ask for an OTP, and a fulfilled OTP
      verification always signs in. */
  method LoginFlow(stored: Option<User>, first: LoginResponse, verified: User)
    returns (afterLogin: Option<User>, afterVerify: Option<User>)
    ensures afterLogin == if first.otpSent then stored else Some(first.user)
    ensures afterVerify == Some(verified)
  {
    var auth := new Auth(stored);
    auth.Pending();
    auth.LoginFulfilled(first);
    afterLogin := auth.user;
    auth.Pending();
    auth.VerifyOtpFulfilled(verified);
    afterVerify := auth.user;
  }
}
