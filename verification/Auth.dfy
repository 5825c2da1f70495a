/** Where connections and login events come from: the page that opens a connection, and the controller that accepts a
    login. Token checks and the user database are given as their outcomes. */
module Auth {
  import opened Options
  import opened UserKey
  import opened Outbound
  import opened Hub
  import opened Connections
  import opened Managers

  const OK := 200
  const PARAMETER_ILLEGAL := 1001
  const UNAUTHORIZED_USER_ID := 1002
  const SERVER_ERROR := 1004
  const OPERATION_FAILURE := 1009

  /** What the outside world says about one login request. */
  datatype Attempt = Attempt(request: Option<(AppId, string)>, databaseUp: bool, userFound: bool, userValid: bool)

  /** Accepts a login at most once for a named user: it writes the identity into the connection, then posts it. When
      the Login channel is full the goroutine blocks with the identity written and the event not yet posted. The queued
      events stay true to their connections exactly if none of this connection's tells another identity: it could only
      have posted one under the empty user id. */
  method AuthController(manager: ClientManager, client: Client, attempt: Attempt, currentTime: Time)
    returns (code: nat, cmd: string, blocked: bool)
    requires manager.Valid() && client in manager.known
    modifies client`appId, client`userId, client`loginTime, client`heartbeatTime, manager`login
    ensures code == 200 <==> attempt.request.Some? && attempt.databaseUp && attempt.userFound && attempt.userValid
                             && old(client.userId) == ""
    ensures code == 1001 <==> attempt.request.None?
    ensures code == 1004 <==> attempt.request.Some? && !attempt.databaseUp
    ensures code == 1002 <==> attempt.request.Some? && attempt.databaseUp && !(attempt.userFound && attempt.userValid)
    ensures code == 1009 <==> attempt.request.Some? && attempt.databaseUp && attempt.userFound && attempt.userValid
                              && old(client.userId) != ""
    ensures cmd == if code == 1001 || code == 1004 || (code == 1002 && !attempt.userFound)
                   then "error_on_controller" else "auth-good"
    ensures code != 200 ==> unchanged(client) && manager.login == old(manager.login) && !blocked
    ensures code == 200 ==>
      && (client.appId, client.userId) == attempt.request.value && client.loginTime == client.heartbeatTime == currentTime
      && client.View() == old(client.View()).(appId := attempt.request.value.0, userId := attempt.request.value.1)
      && blocked == (|old(manager.login.buf)| >= manager.login.cap)
      && manager.login == old(manager.login).(buf :=
           old(manager.login.buf) + if blocked then [] else [LoginEvent(client.appId, client.userId, client)])
    ensures client.userId != "" <==> old(client.userId) != "" || (code == 200 && attempt.request.value.1 != "")
    ensures manager.Valid()
    ensures old(manager.LoginsSettled()) ==>
      (manager.LoginsSettled() <==> forall l | l in old(manager.login.buf) && l.client == client ::
                                      l.appId == client.appId && l.userId == client.userId)
  {
    code, cmd, blocked := OK, "auth-good", false;
    if attempt.request.None? {
      return PARAMETER_ILLEGAL, "error_on_controller", false;
    }
    var (appId, userId) := attempt.request.value;
    if !attempt.databaseUp {
      return SERVER_ERROR, "error_on_controller", false;
    }
    if !attempt.userFound {
      return UNAUTHORIZED_USER_ID, "error_on_controller", false;
    }
    if !attempt.userValid {
      code := UNAUTHORIZED_USER_ID;
      return;
    }
    if client.IsLogin() {
      code := OPERATION_FAILURE;
      return;
    }
    client.Login(appId, userId, currentTime);
    var login := LoginEvent(appId, userId, client);
    if manager.login.HasRoom() {
      manager.login := manager.login.(buf := manager.login.buf + [login]);
    } else {
      blocked := true;
    }
  }

  /** Opens a connection and announces it; a failed upgrade creates none. When the Register channel is full the page
      blocks with the connection's goroutines already running. */
  method WsPage(manager: ClientManager, upgraded: bool, addr: string, currentTime: Time)
    returns (client: Client?, blocked: bool)
    requires manager.Valid()
    modifies manager`known, manager`register
    ensures manager.Valid() && (client == null <==> !upgraded)
    ensures client == null ==> manager.known == old(manager.known) && manager.register == old(manager.register) && !blocked
    ensures client != null ==>
      && fresh(client) && client.View() == Conn(addr, 0, "", Out(Chan([], 100, false), [], true))
      && manager.known == old(manager.known) + {client}
      && blocked == (|old(manager.register.buf)| >= manager.register.cap)
      && manager.register == old(manager.register).(buf := old(manager.register.buf) + if blocked then [] else [client])
  {
    client, blocked := null, false;
    if !upgraded {
      return;
    }
    var c := new Client.NewClient(addr, currentTime);
    manager.known := manager.known + {c};
    client := c;
    if manager.register.HasRoom() {
      manager.register := manager.register.(buf := manager.register.buf + [c]);
    } else {
      blocked := true;
    }
  }
}
