/** The auth store: registration and PIN login against the device's secure key-value store.
    The remote sign-up is fire-and-forget: its outcome never changes what the store does. */
module Auth {
  import opened Common
  import opened Text

  const PinKey := "user_pin"
  const PhoneKey := "user_phone"
  const NameKey := "user_name"
  const PasswordKey := "user_password"

  /** The secure store: a map from key to stored text. */
  type Secure = map<string, string>

  datatype AuthState = AuthState(isRegistered: bool, isAuthenticated: bool, isLoading: bool,
                                 userPhone: Option<string>, userName: Option<string>)

  /** Locked, not yet known to be registered, loading. */
  const InitialAuth := AuthState(false, false, true, None, None)

  /** `getItemAsync`: the stored text, or `null`. */
  function Get(secure: Secure, key: string): Option<string>
  {
    if key in secure then Some(secure[key]) else None
  }

  /** JavaScript truthiness of a `string | null`. */
  predicate Truthy(v: Option<string>)
  {
    v.Some? && v.value != ""
  }

  /** `checkRegistration`: registered iff both a PIN and a phone are stored and non-empty.
      A failed read changes nothing but the loading flag. */
  function CheckRegistration(st: AuthState, secure: Secure, readFails: bool): (r: AuthState)
    ensures !r.isLoading && r.isAuthenticated == st.isAuthenticated
    ensures readFails ==> r == st.(isLoading := false)
    ensures !readFails ==>
              (r.isRegistered <==> PinKey in secure && secure[PinKey] != "" && PhoneKey in secure && secure[PhoneKey] != "")
    ensures !readFails && r.isRegistered ==> r.userPhone == Some(secure[PhoneKey]) && r.userName == Get(secure, NameKey)
    ensures !readFails && !r.isRegistered ==> r.userPhone == st.userPhone && r.userName == st.userName
  {
    if readFails then st.(isLoading := false)
    else
      var pin := Get(secure, PinKey);
      var phone := Get(secure, PhoneKey);
      var name := Get(secure, NameKey);
      if Truthy(pin) && Truthy(phone) then
        st.(isRegistered := true, userPhone := phone, userName := name, isLoading := false)
      else st.(isRegistered := false, isLoading := false)
  }

  /** The e-mail of the remote shadow account: the phone's digits at `nadi-pos.local`. */
  function SignUpEmail(phone: string): (email: string)
    ensures |email| > 0
    ensures forall i :: 0 <= i < |email| && email[i] == '@' ==> i == |KeepDigits(phone)|
  {
    KeepDigits(phone) + "@nadi-pos.local"
  }

  /** The address's local part is exactly the phone's digits, in order, and the domain is
      the fixed one. */
  lemma SignUpEmailParts(phone: string)
    ensures LocalPart(SignUpEmail(phone)) == KeepDigits(phone)
    ensures SignUpEmail(phone)[|KeepDigits(phone)|..] == "@nadi-pos.local"
    ensures forall i :: 0 <= i < |KeepDigits(phone)| ==> IsDigit(SignUpEmail(phone)[i])
  {
    var d := KeepDigits(phone);
    assert forall i :: 0 <= i < |d| ==> d[i] != '@';
    LocalPartOfConcat(d, "@nadi-pos.local");
  }

  /** The four secure-store writes of `register`, in order. */
  function RegisterWrites(name: string, phone: string, pin: string, password: string): seq<(string, string)>
  {
    [(PinKey, pin), (PhoneKey, phone), (NameKey, name), (PasswordKey, password)]
  }

  /** The secure store after the first `n` writes. */
  function Store(secure: Secure, writes: seq<(string, string)>, n: nat): Secure
    requires n <= |writes|
  {
    if n == 0 then secure else Store(secure, writes, n - 1)[writes[n - 1].0 := writes[n - 1].1]
  }

  /** With distinct keys, the first `n` writes are readable and every other key is as before. */
  lemma {:induction false} StoreLookup(secure: Secure, writes: seq<(string, string)>, n: nat)
    requires n <= |writes|
    requires forall i, j :: 0 <= i < j < |writes| ==> writes[i].0 != writes[j].0
    ensures forall i :: 0 <= i < n ==> Get(Store(secure, writes, n), writes[i].0) == Some(writes[i].1)
    ensures forall i :: n <= i < |writes| ==> Get(Store(secure, writes, n), writes[i].0) == Get(secure, writes[i].0)
    decreases n
  {
    if n > 0 {
      StoreLookup(secure, writes, n - 1);
    }
  }

  datatype Registration = Registration(state: AuthState, secure: Secure, thrown: bool)

  /** `register`. The remote sign-up's result is ignored. The four local writes run in order;
      `fault == Some(k)` makes the `k`-th fail, which stops the rest and rethrows, keeping the
      earlier writes. Only when all four succeed is the user registered and logged in. The
      random password is a parameter. */
  function Register(st: AuthState, secure: Secure, name: string, phone: string, pin: string,
                    password: string, fault: Option<nat>): (r: Registration)
    ensures r.thrown <==> fault.Some? && fault.value < 4
    ensures !r.state.isLoading
    ensures !r.thrown ==>
              && Get(r.secure, PinKey) == Some(pin) && Get(r.secure, PhoneKey) == Some(phone)
              && Get(r.secure, NameKey) == Some(name) && Get(r.secure, PasswordKey) == Some(password)
              && r.state == AuthState(true, true, false, Some(phone), Some(name))
    ensures r.thrown ==> r.state == st.(isLoading := false)
  {
    var writes := RegisterWrites(name, phone, pin, password);
    StoreLookup(secure, writes, 4);
    assert Get(Store(secure, writes, 4), writes[0].0) == Some(pin);
    assert Get(Store(secure, writes, 4), writes[1].0) == Some(phone);
    assert Get(Store(secure, writes, 4), writes[2].0) == Some(name);
    assert Get(Store(secure, writes, 4), writes[3].0) == Some(password);
    if fault.Some? && fault.value < 4 then
      Registration(st.(isLoading := false), Store(secure, writes, fault.value), true)
    else
      Registration(AuthState(true, true, false, Some(phone), Some(name)), Store(secure, writes, 4), false)
  }

  /** A write that fails part-way leaves the writes before it readable and every later key
      as it was. */
  lemma RegisterPartialWrites(st: AuthState, secure: Secure, name: string, phone: string, pin: string,
                              password: string, k: nat)
    requires k < 4
    ensures var r := Register(st, secure, name, phone, pin, password, Some(k));
            var writes := RegisterWrites(name, phone, pin, password);
            && (forall i :: 0 <= i < k ==> Get(r.secure, writes[i].0) == Some(writes[i].1))
            && (forall i :: k <= i < 4 ==> Get(r.secure, writes[i].0) == Get(secure, writes[i].0))
  {
    StoreLookup(secure, RegisterWrites(name, phone, pin, password), k);
  }

  /** After a registration that went through, the next launch's check finds the user
      registered exactly when the PIN and phone given were non-empty: an empty one is stored
      but does not count. */
  lemma RegisterThenCheck(st: AuthState, secure: Secure, name: string, phone: string, pin: string,
                          password: string, other: AuthState)
    requires !Register(st, secure, name, phone, pin, password, None).thrown
    ensures var r := Register(st, secure, name, phone, pin, password, None);
            CheckRegistration(other, r.secure, false).isRegistered <==> pin != "" && phone != ""
  {
  }

  /** `loginWithPin`: succeeds iff a PIN is stored and equals the one entered; success is the
      only way it changes `isAuthenticated`. A failed read is a failed login. */
  function LoginWithPin(st: AuthState, secure: Secure, pin: string, readFails: bool): (r: (AuthState, bool))
    ensures r.1 <==> !readFails && PinKey in secure && secure[PinKey] == pin
    ensures r.1 ==> r.0 == st.(isAuthenticated := true, isLoading := false)
    ensures !r.1 ==> r.0 == st.(isLoading := false)
  {
    if !readFails && Get(secure, PinKey) == Some(pin) then (st.(isAuthenticated := true, isLoading := false), true)
    else (st.(isLoading := false), false)
  }

  /** After registering with a PIN, logging in with that PIN succeeds and any other fails. */
  lemma LoginAfterRegister(st: AuthState, secure: Secure, name: string, phone: string, pin: string,
                           password: string, entered: string)
    ensures var r := Register(st, secure, name, phone, pin, password, None);
            LoginWithPin(r.state, r.secure, entered, false).1 <==> entered == pin
  {
  }

  /** `lockApp`: only `isAuthenticated` changes, to false. */
  function LockApp(st: AuthState): (r: AuthState)
    ensures !r.isAuthenticated
    ensures r.isRegistered == st.isRegistered && r.isLoading == st.isLoading
    ensures r.userPhone == st.userPhone && r.userName == st.userName
  {
    st.(isAuthenticated := false)
  }

  /** `logout` does what `lockApp` does. */
  function Logout(st: AuthState): (r: AuthState)
    ensures r == LockApp(st)
  {
    st.(isAuthenticated := false)
  }

  /** Locking and then entering the stored PIN restores the state before the lock. */
  lemma LockThenLogin(st: AuthState, secure: Secure, readFails: bool)
    requires st.isAuthenticated && !st.isLoading && PinKey in secure && !readFails
    ensures LoginWithPin(LockApp(st), secure, secure[PinKey], readFails) == (st, true)
  {
  }
}
