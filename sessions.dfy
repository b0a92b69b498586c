/**
 * The two live-notification WebSocket endpoints, `/ws/wallets/{model_id}`
 * (`WalletNotify`) and `/ws/invoices/{model_id}` (`InvoiceNotify`): what
 * `on_connect` does step by step to the endpoint's fields, the connection
 * and the broker, and what `on_disconnect` undoes.
 *
 * The collaborators the handlers await are parameters: `authorized` holds,
 * by access token, the user the token check `utils.AuthDependency(token=...)`
 * returns for the wallet-management scope (a token missing from it makes the
 * check raise); `wallets` and `lookupInvoice` are the database queries (no
 * row: no key, or None); `loadRelated` is the invoice reload `crud.get_invoice`.
 */
module Sessions {
  import opened Wrappers
  import opened Models
  import Ints
  import opened Notifications

  /** The scopes the wallet endpoint asks the token check for. */
  const WalletScopes: seq<string> := ["wallet_management"]

  /** The only invoice status that can still change. */
  const Pending := "Pending"

  /**
   * `int(websocket.path_params["model_id"])`; None for a KeyError or a
   * ValueError. A missing parameter gives None, and an id is only ever read
   * from a parameter holding at least one decimal digit.
   */
  function ModelId(pathParams: map<string, string>): (r: Option<int>)
    ensures "model_id" !in pathParams ==> r.None?
    ensures r.Some? ==> ("model_id" in pathParams &&
      exists i :: 0 <= i < |pathParams["model_id"]| && Ints.IsDigit(pathParams["model_id"][i]))
  {
    if "model_id" in pathParams then Ints.ParseInt(pathParams["model_id"]) else None
  }

  /** A path whose `model_id` is the decimal text of `n` names the model `n`. */
  lemma ModelIdReadsPrintedId(pathParams: map<string, string>, n: int)
    requires "model_id" in pathParams && pathParams["model_id"] == Ints.DecimalString(n)
    ensures ModelId(pathParams) == Some(n)
  {
    Ints.ParseDecimalString(n);
  }

  /**
   * The four steps of `WalletNotify.on_connect` all succeed: the id parses,
   * a `token` query parameter is present, the token authenticates with the
   * wallet-management scope and the wallet exists.
   */
  predicate WalletAdmitted(pathParams: map<string, string>, queryParams: map<string, string>,
                           authorized: map<string, User>, wallets: map<int, Wallet>): (r: bool)
    ensures r ==> "model_id" in pathParams && "token" in queryParams
  {
    var id := ModelId(pathParams);
    id.Some? && "token" in queryParams && queryParams["token"] in authorized && id.value in wallets
  }

  /**
   * The wallet endpoint checks the token's scope and that the wallet exists,
   * but never compares the wallet's owner with the token's user: a user
   * holding a wallet-management token is admitted to another user's wallet.
   */
  lemma WalletAdmissionIgnoresOwner(pathParams: map<string, string>, queryParams: map<string, string>,
                                    authorized: map<string, User>, wallets: map<int, Wallet>)
    requires ModelId(pathParams).Some? && ModelId(pathParams).value in wallets
    requires "token" in queryParams && queryParams["token"] in authorized
    requires wallets[ModelId(pathParams).value].userId != authorized[queryParams["token"]].id
    ensures WalletAdmitted(pathParams, queryParams, authorized, wallets)
  {
  }

  class WalletNotify {
    var walletId: Option<int>
    var accessToken: Option<string>
    var user: Option<User>
    var wallet: Option<Wallet>
    /** The class attribute `subscriber = None` until a subscription is made. */
    var subscriber: Option<Subscriber>
    var channel: Option<string>

    /** A subscriber is only ever held after every step before it succeeded. */
    ghost predicate Valid()
      reads this
    {
      subscriber.Some? ==>
        walletId.Some? && accessToken.Some? && user.Some? && wallet.Some? &&
        channel == Some(ChannelName(walletId.value))
    }

    constructor ()
      ensures Valid()
      ensures walletId.None? && accessToken.None? && user.None? && wallet.None?
      ensures subscriber.None? && channel.None?
    {
      walletId, accessToken, user, wallet := None, None, None, None;
      subscriber, channel := None, None;
    }

    method OnConnect(ws: WebSocket, broker: Broker,
                     authorized: map<string, User>, wallets: map<int, Wallet>)
      requires Valid() && subscriber.None? && broker.Valid()
      modifies this, ws, broker
      ensures Valid() && broker.Valid()
      ensures ws.accepted && ws.sent == old(ws.sent)
      ensures ModelId(ws.pathParams).Some? ==> walletId == ModelId(ws.pathParams)
      ensures subscriber.Some? <==> WalletAdmitted(ws.pathParams, ws.queryParams, authorized, wallets)
      ensures subscriber.None? ==>
        ws.closeCode == Some(PolicyViolation) && broker.registry == old(broker.registry)
      ensures subscriber.Some? ==>
        ws.closeCode == old(ws.closeCode) &&
        user == Some(authorized[ws.queryParams["token"]]) &&
        wallet == Some(wallets[walletId.value]) &&
        subscriber.value.handle !in old(broker.registry) &&
        broker.registry == Subscribed(old(broker.registry), subscriber.value.handle, ChannelName(walletId.value))
    {
      ws.Accept();
      if "model_id" !in ws.pathParams {
        ws.Close(PolicyViolation);
        return;
      }
      var parsed := Ints.ParseInt(ws.pathParams["model_id"]);
      if parsed.None? {
        ws.Close(PolicyViolation);
        return;
      }
      walletId := parsed;
      if "token" !in ws.queryParams {
        ws.Close(PolicyViolation);
        return;
      }
      accessToken := Some(ws.queryParams["token"]);
      if accessToken.value !in authorized {
        ws.Close(PolicyViolation);
        return;
      }
      user := Some(authorized[accessToken.value]);
      wallet := if walletId.value in wallets then Some(wallets[walletId.value]) else None;
      if wallet.None? {
        ws.Close(PolicyViolation);
        return;
      }
      var s, c := broker.MakeSubscriber(walletId.value);
      subscriber, channel := Some(s), Some(c);
    }

    /** Unsubscribes from the wallet's channel exactly when a subscriber was obtained. */
    method OnDisconnect(broker: Broker)
      requires Valid() && broker.Valid()
      modifies broker
      ensures broker.Valid() && broker.nextHandle == old(broker.nextHandle)
      ensures subscriber.None? ==> broker.registry == old(broker.registry)
      ensures subscriber.Some? ==>
        broker.registry == Unsubscribed(old(broker.registry), subscriber.value.handle, ChannelName(walletId.value))
    {
      if subscriber.Some? {
        broker.Unsubscribe(subscriber.value, ChannelName(walletId.value));
      }
    }
  }

  /**
   * One wallet connection from start to end, as the WebSocket endpoint runs
   * it: `on_connect`, then, once the connection ends, `on_disconnect`. On
   * every path the broker's registry ends as it began.
   */
  method WalletSession(ws: WebSocket, broker: Broker,
                       authorized: map<string, User>, wallets: map<int, Wallet>)
    returns (endpoint: WalletNotify)
    requires broker.Valid()
    modifies ws, broker
    ensures broker.Valid() && broker.registry == old(broker.registry)
    ensures endpoint.subscriber.Some? <==> WalletAdmitted(ws.pathParams, ws.queryParams, authorized, wallets)
    ensures endpoint.subscriber.None? ==> ws.closeCode == Some(PolicyViolation)
  {
    endpoint := new WalletNotify();
    endpoint.OnConnect(ws, broker, authorized, wallets);
    endpoint.OnDisconnect(broker);
    if endpoint.subscriber.Some? {
      UnsubscribeUndoesSubscribe(old(broker.registry), endpoint.subscriber.value.handle, ChannelName(endpoint.walletId.value));
    }
  }

  class InvoiceNotify {
    var invoiceId: Option<int>
    var invoice: Option<Invoice>
    /** The class attribute `subscriber = None` until a subscription is made. */
    var subscriber: Option<Subscriber>
    var channel: Option<string>

    /** A subscriber is only ever held for a loaded invoice. */
    ghost predicate Valid()
      reads this
    {
      subscriber.Some? ==>
        invoiceId.Some? && invoice.Some? && channel == Some(ChannelName(invoiceId.value))
    }

    constructor ()
      ensures Valid()
      ensures invoiceId.None? && invoice.None? && subscriber.None? && channel.None?
    {
      invoiceId, invoice, subscriber, channel := None, None, None, None;
    }

    method OnConnect(ws: WebSocket, broker: Broker,
                     lookupInvoice: int -> Option<Invoice>,
                     loadRelated: Invoice -> Invoice)
      requires Valid() && subscriber.None? && broker.Valid()
      modifies this, ws, broker
      ensures Valid() && broker.Valid()
      ensures ws.accepted
      ensures ModelId(ws.pathParams).Some? ==> invoiceId == ModelId(ws.pathParams)
      ensures var id := ModelId(ws.pathParams);
        var found := if id.Some? then lookupInvoice(id.value) else None;
        (found.None? ==>
          ws.closeCode == Some(PolicyViolation) && ws.sent == old(ws.sent) &&
          subscriber.None? && broker.registry == old(broker.registry)) &&
        (found.Some? && found.value.status != Pending ==>
          ws.sent == old(ws.sent) + [StatusMessage(found.value.status)] &&
          ws.closeCode == Some(NormalClosure) &&
          subscriber.None? && broker.registry == old(broker.registry)) &&
        (found.Some? && found.value.status == Pending ==>
          ws.sent == old(ws.sent) && ws.closeCode == old(ws.closeCode) &&
          invoice == Some(loadRelated(found.value)) &&
          subscriber.Some? && subscriber.value.handle !in old(broker.registry) &&
          broker.registry == Subscribed(old(broker.registry), subscriber.value.handle, ChannelName(id.value)))
    {
      ws.Accept();
      if "model_id" !in ws.pathParams {
        ws.Close(PolicyViolation);
        return;
      }
      var parsed := Ints.ParseInt(ws.pathParams["model_id"]);
      if parsed.None? {
        ws.Close(PolicyViolation);
        return;
      }
      invoiceId := parsed;
      invoice := lookupInvoice(invoiceId.value);
      if invoice.None? {
        ws.Close(PolicyViolation);
        return;
      }
      if invoice.value.status != Pending {
        ws.SendJson(StatusMessage(invoice.value.status));
        ws.Close(NormalClosure);
        return;
      }
      invoice := Some(loadRelated(invoice.value));
      var s, c := broker.MakeSubscriber(invoiceId.value);
      subscriber, channel := Some(s), Some(c);
    }

    /** Unsubscribes from the invoice's channel exactly when a subscriber was obtained. */
    method OnDisconnect(broker: Broker)
      requires Valid() && broker.Valid()
      modifies broker
      ensures broker.Valid() && broker.nextHandle == old(broker.nextHandle)
      ensures subscriber.None? ==> broker.registry == old(broker.registry)
      ensures subscriber.Some? ==>
        broker.registry == Unsubscribed(old(broker.registry), subscriber.value.handle, ChannelName(invoiceId.value))
    {
      if subscriber.Some? {
        broker.Unsubscribe(subscriber.value, ChannelName(invoiceId.value));
      }
    }
  }

  /**
   * One invoice connection from start to end: `on_connect`, then
   * `on_disconnect`. On every path the broker's registry ends as it began,
   * and a subscription exists in between only for a pending invoice.
   */
  method InvoiceSession(ws: WebSocket, broker: Broker,
                        lookupInvoice: int -> Option<Invoice>,
                        loadRelated: Invoice -> Invoice)
    returns (endpoint: InvoiceNotify)
    requires broker.Valid()
    modifies ws, broker
    ensures broker.Valid() && broker.registry == old(broker.registry)
    ensures endpoint.subscriber.Some? <==>
      ModelId(ws.pathParams).Some? &&
      lookupInvoice(ModelId(ws.pathParams).value).Some? &&
      lookupInvoice(ModelId(ws.pathParams).value).value.status == Pending
  {
    endpoint := new InvoiceNotify();
    endpoint.OnConnect(ws, broker, lookupInvoice, loadRelated);
    endpoint.OnDisconnect(broker);
    if endpoint.subscriber.Some? {
      UnsubscribeUndoesSubscribe(old(broker.registry), endpoint.subscriber.value.handle, ChannelName(endpoint.invoiceId.value));
    }
  }
}
