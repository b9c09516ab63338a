/**
 * The "Check Netgíró status" order action: when the admin order screen
 * offers it, and the single order note that running it writes.
 */
module Actions {
  import opened Wrappers
  import Php
  import Json
  import Api
  import Signature
  import Fields
  import opened Store

  const ActionKey := "netgiro_check_status"
  const ActionLabel := "Check Netgíró status"

  /** What `add_check_status_order_action` reads from the request: the
    * global order being edited, the `post` and `order_id` parameters, and
    * whether the nonce that goes with each parameter verified. */
  datatype AdminRequest = AdminRequest(
    /** The payment method of `$theorder`, None when it is no order. */
    theOrderMethod: Option<string>,
    post: Option<string>,
    orderIdParam: Option<string>,
    isAdmin: bool,
    postNonceValid: bool,
    ajaxNonceValid: bool,
    /** The payment method of each existing order, by id. */
    paymentMethods: map<nat, string>)

  /** The order named by a request parameter exists and was paid with Netgíró. */
  predicate NetgiroOrderParam(req: AdminRequest, param: string)
  {
    var id := Php.AbsInt(param);
    id > 0 && id in req.paymentMethods && req.paymentMethods[id] == "netgiro"
  }

  /** The guard chain deciding `$show_action`: the first applicable source of
    * the order decides, and a bad nonce hides the action. */
  predicate ShowAction(req: AdminRequest)
  {
    if req.theOrderMethod == Some("netgiro") then true
    else if req.post.Some? && req.isAdmin then req.postNonceValid && NetgiroOrderParam(req, req.post.value)
    else if req.orderIdParam.Some? && req.isAdmin then req.ajaxNonceValid && NetgiroOrderParam(req, req.orderIdParam.value)
    else false
  }

  /** `add_check_status_order_action`: the actions, with the status check
    * added when a Netgíró order is being edited. */
  function AddCheckStatusOrderAction(actions: Fields.Pairs, req: AdminRequest): (r: Fields.Pairs)
    ensures !ShowAction(req) ==> r == actions
    ensures ShowAction(req) && !Fields.HasKey(actions, ActionKey) ==> r == actions + [(ActionKey, ActionLabel)]
  {
    if ShowAction(req) then Fields.Put(actions, ActionKey, ActionLabel) else actions
  }

  /** The action is offered only for a Netgíró order: the one being edited,
    * or, in the admin with a verified nonce, the one the request names. */
  lemma ActionOnlyForNetgiroOrders(actions: Fields.Pairs, req: AdminRequest)
    requires Fields.HasKey(AddCheckStatusOrderAction(actions, req), ActionKey) && !Fields.HasKey(actions, ActionKey)
    ensures req.theOrderMethod == Some("netgiro")
            || (req.isAdmin && req.post.Some? && req.postNonceValid && NetgiroOrderParam(req, req.post.value))
            || (req.isAdmin && req.post.None? && req.orderIdParam.Some? && req.ajaxNonceValid
                && NetgiroOrderParam(req, req.orderIdParam.value))
  {
  }

  /** When it is offered, the action reads as its label and every existing
    * action is kept with its label. */
  lemma ExistingActionsKept(actions: Fields.Pairs, req: AdminRequest)
    ensures ShowAction(req) ==> Fields.Lookup(AddCheckStatusOrderAction(actions, req), ActionKey) == Some(ActionLabel)
    ensures forall k :: k != ActionKey ==>
              Fields.Lookup(AddCheckStatusOrderAction(actions, req), k) == Fields.Lookup(actions, k)
  {
    forall k {
      Fields.PutLookup(actions, ActionKey, ActionLabel, k);
    }
  }

  // ------------------------------------------------------------ the status check

  /** The gateway settings the check reads, when the gateway is active. */
  datatype GatewaySettings = GatewaySettings(secretKey: string, applicationId: string, testMode: bool)

  /** What `process_check_status_action` finds around the order. */
  datatype Environment = Environment(
    /** `$gateways['netgiro']`, None when missing or not a Netgiro_Gateway. */
    gateway: Option<GatewaySettings>,
    /** `class_exists('Netgiro_API')`. */
    apiClassLoaded: bool,
    hash: Signature.Hasher,
    encode: Api.Encoder,
    /** `esc_html`. */
    escHtml: string -> string,
    /** `wc_format_datetime(new WC_DateTime($text))`. */
    formatDate: string -> string)

  const NoTransactionNote := "No Netgíró transaction ID found for this order."
  const NotNetgiroNote := "Order was not paid using Netgíró. Status check aborted."
  const NoGatewayNote := "Netgíró gateway instance not found or not active."
  const NoCredentialsNote :=
    "Netgíró API credentials (Secret Key or Application ID) are not configured in WooCommerce settings."
  const NoApiClassNote := "Netgíró API class not found. Plugin files may be missing or corrupted."

  function FailedNote(message: string, transactionId: string): string
  {
    "Netgíró status check failed: " + message + " (Transaction ID: " + transactionId + ")"
  }

  /** `isset($data['status'])`: the status with its first letter capitalised. */
  function StatusInfo(env: Environment, data: Option<Json.JVal>): (r: string)
    ensures data.None? || Json.Field(data.value, "status").None? ==> r == "Status not provided"
    ensures data.Some? && Json.Field(data.value, "status").Some? ==>
              r == env.escHtml(Php.UcFirst(Json.Text(Json.Field(data.value, "status").value)))
  {
    if data.Some? && Json.Field(data.value, "status").Some? then
      env.escHtml(Php.UcFirst(Json.Text(Json.Field(data.value, "status").value)))
    else "Status not provided"
  }

  /** "Refundable" exactly when `isRefundable` is present and truthy. */
  function RefundableInfo(data: Option<Json.JVal>): (r: string)
    ensures r == "Refundable" <==>
              data.Some? && Json.Field(data.value, "isRefundable").Some? && !Json.Empty(Json.Field(data.value, "isRefundable").value)
    ensures r == "Refundable" || r == "Not Refundable"
  {
    if data.Some? && Json.Field(data.value, "isRefundable").Some? && !Json.Empty(Json.Field(data.value, "isRefundable").value)
    then "Refundable" else "Not Refundable"
  }

  function SettlementInfo(env: Environment, data: Option<Json.JVal>): string
  {
    if data.Some? && Json.Field(data.value, "settlementDate").Some? then
      "Settlement expected on: " + env.formatDate(Json.Text(Json.Field(data.value, "settlementDate").value))
    else "Settlement date not available"
  }

  function UpdatedNote(env: Environment, transactionId: string, data: Option<Json.JVal>): string
  {
    "Netgíró status updated: Transaction ID: " + env.escHtml(transactionId) + ". Status: " + StatusInfo(env, data)
    + ". Refundable: " + RefundableInfo(data) + ". " + SettlementInfo(env, data)
  }

  datatype Check = Check(note: string, sent: Option<Api.Request>)

  /** The API client the check builds from the gateway's settings. */
  function ClientOf(env: Environment, g: GatewaySettings): Api.Client
  {
    Api.NewClient(g.testMode, g.secretKey, g.applicationId, env.hash, env.encode)
  }

  /** Whether every guard before the status call passes. */
  predicate MayCallApi(env: Environment, st: OrderState)
  {
    !Php.EmptyString(st.transactionId) && st.paymentMethod == "netgiro" && env.gateway.Some?
    && !Php.EmptyString(env.gateway.value.secretKey) && !Php.EmptyString(env.gateway.value.applicationId)
    && env.apiClassLoaded
  }

  /**
   * `process_check_status_action`: the note it writes and the request it
   * sends. The guards run in order (transaction id, payment method,
   * gateway, credentials, API class), each writing its own note and
   * sending nothing; past them the status is fetched and the note reports
   * the failure or the status found.
   */
  function CheckStatus(env: Environment, st: OrderState, reply: Api.Reply): (r: Check)
    ensures Php.EmptyString(st.transactionId) ==> r == Check(NoTransactionNote, None)
    ensures !Php.EmptyString(st.transactionId) && st.paymentMethod != "netgiro" ==> r == Check(NotNetgiroNote, None)
    ensures !Php.EmptyString(st.transactionId) && st.paymentMethod == "netgiro" && env.gateway.None? ==>
              r == Check(NoGatewayNote, None)
    ensures !Php.EmptyString(st.transactionId) && st.paymentMethod == "netgiro" && env.gateway.Some?
            && (Php.EmptyString(env.gateway.value.secretKey) || Php.EmptyString(env.gateway.value.applicationId)) ==>
              r == Check(NoCredentialsNote, None)
    ensures !Php.EmptyString(st.transactionId) && st.paymentMethod == "netgiro" && env.gateway.Some?
            && !Php.EmptyString(env.gateway.value.secretKey) && !Php.EmptyString(env.gateway.value.applicationId)
            && !env.apiClassLoaded ==>
              r == Check(NoApiClassNote, None)
    ensures r.sent.Some? <==> MayCallApi(env, st)
    ensures MayCallApi(env, st) ==>
              var call := Api.GetTransactionStatus(ClientOf(env, env.gateway.value), st.transactionId, reply);
              r.sent == call.sent
              && (!call.envelope.success ==> r.note == FailedNote(env.escHtml(call.envelope.message), env.escHtml(st.transactionId)))
              && (call.envelope.success ==> r.note == UpdatedNote(env, st.transactionId, call.envelope.data))
  {
    if Php.EmptyString(st.transactionId) then Check(NoTransactionNote, None)
    else if st.paymentMethod != "netgiro" then Check(NotNetgiroNote, None)
    else if env.gateway.None? then Check(NoGatewayNote, None)
    else if Php.EmptyString(env.gateway.value.secretKey) || Php.EmptyString(env.gateway.value.applicationId) then
      Check(NoCredentialsNote, None)
    else if !env.apiClassLoaded then Check(NoApiClassNote, None)
    else
      var call := Api.GetTransactionStatus(ClientOf(env, env.gateway.value), st.transactionId, reply);
      if !call.envelope.success then
        Check(FailedNote(env.escHtml(call.envelope.message), env.escHtml(st.transactionId)), call.sent)
      else Check(UpdatedNote(env, st.transactionId, call.envelope.data), call.sent)
  }

  /** The check runs against the Partner API host the gateway's test-mode
    * setting selects, for the order's own transaction. */
  lemma CheckQueriesOwnTransaction(env: Environment, st: OrderState, reply: Api.Reply)
    requires MayCallApi(env, st)
    ensures var sent := CheckStatus(env, st, reply).sent.value;
            sent.verb == Api.Get
            && sent.url == (if env.gateway.value.testMode then Api.TestPartnerApiUrl else Api.LivePartnerApiUrl)
                           + "transaction/" + st.transactionId
  {
  }

  /** `process_check_status_action($order)`: appends the check's note, and
    * nothing else about the order changes. */
  method ProcessCheckStatusAction(order: Order, env: Environment, reply: Api.Reply) returns (sent: Option<Api.Request>)
    modifies order
    ensures order.State() == AddNote(old(order.State()), CheckStatus(env, old(order.State()), reply).note)
    ensures sent == CheckStatus(env, old(order.State()), reply).sent
  {
    var check := CheckStatus(env, order.State(), reply);
    order.AddOrderNote(check.note);
    sent := check.sent;
  }

  /** Running the check adds exactly one note and leaves status, transaction
    * id and the Netgíró flag as they were. */
  lemma CheckAddsOneNote(env: Environment, st: OrderState, reply: Api.Reply)
    ensures var after := AddNote(st, CheckStatus(env, st, reply).note);
            |after.notes| == |st.notes| + 1 && after.notes[..|st.notes|] == st.notes
            && after.status == st.status && after.transactionId == st.transactionId && after.flag == st.flag
  {
    var after := AddNote(st, CheckStatus(env, st, reply).note);
    assert after.notes[..|st.notes|] == st.notes;
  }
}
