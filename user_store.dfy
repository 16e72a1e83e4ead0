/**
 * The signed-in user store (src/stores/user.ts): four string fields updated in
 * place, two derived views, and a fixed-value sample login.
 */
module User {
  import opened Wrappers

  const SampleId: string := "1"
  const SampleAvatar: string := "https://example.com/avatar.jpg"
  const SampleToken: string := "sample-token"

  /** The four fields of the store, as one value. */
  datatype UserState = UserState(id: string, name: string, avatar: string, token: string)

  /** The `userInfo` view: everything but the token. */
  datatype PublicInfo = PublicInfo(id: string, name: string, avatar: string)

  /** `Partial<UserState>`: each field may be missing. */
  datatype PartialUser = PartialUser(id: Option<string>, name: Option<string>, avatar: Option<string>, token: Option<string>)

  const Cleared: UserState := UserState("", "", "", "")

  /** JavaScript truthiness of an optional string: present and not empty. */
  predicate Truthy(v: Option<string>) {
    v.Some? && v.value != ""
  }

  /** One truthiness-guarded field assignment. */
  function Pick(current: string, v: Option<string>): (r: string)
    ensures r == current || (Truthy(v) && r == v.value)
    ensures Truthy(v) ==> r == v.value
  {
    if Truthy(v) then v.value else current
  }

  /** The state after `setUserInfo(p)`. */
  function Merge(s: UserState, p: PartialUser): UserState {
    UserState(Pick(s.id, p.id), Pick(s.name, p.name), Pick(s.avatar, p.avatar), Pick(s.token, p.token))
  }

  /** `isLoggedIn`: the token is truthy. */
  predicate LoggedIn(s: UserState) {
    s.token != ""
  }

  /** The `userInfo` view of a state. */
  function Info(s: UserState): (u: PublicInfo)
    ensures u.id == s.id && u.name == s.name && u.avatar == s.avatar
  {
    PublicInfo(s.id, s.name, s.avatar)
  }

  /** The record `login` builds and returns. */
  function LoginRecord(username: string): UserState {
    UserState(SampleId, username, SampleAvatar, SampleToken)
  }

  /** A full record passed where a `Partial<UserState>` is expected. */
  function AsPartial(s: UserState): PartialUser {
    PartialUser(Some(s.id), Some(s.name), Some(s.avatar), Some(s.token))
  }

  /** Each field takes the partial's value exactly when that value is truthy, and keeps its own otherwise. */
  lemma MergeFieldwise(s: UserState, p: PartialUser)
    ensures Merge(s, p).id == (if Truthy(p.id) then p.id.value else s.id)
    ensures Merge(s, p).name == (if Truthy(p.name) then p.name.value else s.name)
    ensures Merge(s, p).avatar == (if Truthy(p.avatar) then p.avatar.value else s.avatar)
    ensures Merge(s, p).token == (if Truthy(p.token) then p.token.value else s.token)
  {
  }

  /** `setUserInfo` never empties a field: a field is empty afterwards only if it was empty before. */
  lemma MergeNeverEmpties(s: UserState, p: PartialUser)
    ensures Merge(s, p).id == "" ==> s.id == ""
    ensures Merge(s, p).name == "" ==> s.name == ""
    ensures Merge(s, p).avatar == "" ==> s.avatar == ""
    ensures Merge(s, p).token == "" ==> s.token == ""
    ensures LoggedIn(s) ==> LoggedIn(Merge(s, p))
  {
  }

  /** Applying the same partial update twice is the same as once. */
  lemma MergeIdempotent(s: UserState, p: PartialUser)
    ensures Merge(Merge(s, p), p) == Merge(s, p)
  {
  }

  /** A partial whose every field is missing or empty changes nothing. */
  lemma MergeFalsyIsNoOp(s: UserState, p: PartialUser)
    requires !Truthy(p.id) && !Truthy(p.name) && !Truthy(p.avatar) && !Truthy(p.token)
    ensures Merge(s, p) == s
  {
  }

  /** After `login(u, _)`: the sample id, avatar and token, logged in, and the name replaced only by a non-empty `u`. */
  lemma LoginEffect(s: UserState, username: string)
    ensures var t := Merge(s, AsPartial(LoginRecord(username)));
      && t.id == SampleId && t.avatar == SampleAvatar && t.token == SampleToken
      && t.name == (if username != "" then username else s.name)
      && LoggedIn(t)
  {
  }

  /** The `userInfo` view never depends on the token. */
  lemma InfoHidesToken(s: UserState, token: string)
    ensures Info(s.(token := token)) == Info(s)
  {
  }

  class UserStore {
    var id: string
    var name: string
    var avatar: string
    var token: string

    /** The four fields as one value. */
    function State(): UserState
      reads this
    {
      UserState(id, name, avatar, token)
    }

    /** Every field starts as the empty string. */
    constructor ()
      ensures State() == Cleared
      ensures !IsLoggedIn()
    {
      id, name, avatar, token := "", "", "", "";
    }

    /** `isLoggedIn`: holds exactly when the token is not empty. */
    function IsLoggedIn(): (b: bool)
      reads this
      ensures b <==> LoggedIn(State())
    {
      token != ""
    }

    /** `userInfo`: id, name and avatar; the token is not part of it. */
    function UserInfo(): (u: PublicInfo)
      reads this
      ensures u == Info(State())
    {
      PublicInfo(id, name, avatar)
    }

    /** `setUserInfo`: assign each truthy field of `p`, keep every other field. */
    method SetUserInfo(p: PartialUser)
      modifies this
      ensures State() == Merge(old(State()), p)
    {
      if Truthy(p.id) { id := p.id.value; }
      if Truthy(p.name) { name := p.name.value; }
      if Truthy(p.avatar) { avatar := p.avatar.value; }
      if Truthy(p.token) { token := p.token.value; }
    }

    /** `clearUserInfo`: every field back to ''. */
    method ClearUserInfo()
      modifies this
      ensures State() == Cleared
      ensures !IsLoggedIn()
    {
      id := "";
      name := "";
      avatar := "";
      token := "";
    }

    /** `login(username, _password)`: the fixed sample login; the password is ignored. */
    method Login(username: string, password: string) returns (u: UserState)
      modifies this
      ensures u == LoginRecord(username)
      ensures State() == Merge(old(State()), AsPartial(u))
      ensures IsLoggedIn()
      ensures id == SampleId && avatar == SampleAvatar && token == SampleToken
      ensures name == if username != "" then username else old(name)
    {
      u := LoginRecord(username);
      SetUserInfo(AsPartial(u));
    }

    /** `logout`: the same reset as `clearUserInfo`. */
    method Logout()
      modifies this
      ensures State() == Cleared
      ensures !IsLoggedIn()
    {
      ClearUserInfo();
    }
  }
}
