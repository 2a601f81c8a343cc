/** How one snackbar notification renders: its `type` picks a content component and a CSS class, a
    transaction links to the block explorer of the current network, and the close icon dismisses it. */
module NotificationView {
  import opened Types
  import opened Config
  import opened Notifications

  /** The object handed to the snackbar: a `type` tag and named fields. */
  datatype Payload = Payload(kind: string, fields: map<string, string>)

  /** What the notifications context enqueues for a notification. */
  function Enqueued(n: Notification): (p: Payload)
  {
    match n
    case TxNote(description, hash) => Payload("tx", map["description" := description, "hash" := hash])
    case ErrorNote(message) => Payload("error", map["message" := message])
    case SuccessNote(title, message) => Payload("success", map["title" := title, "message" := message])
  }

  /** A missing field renders as nothing. */
  function Field(p: Payload, name: string): string
  {
    if name in p.fields then p.fields[name] else ""
  }

  /** A template string shows null as "null". */
  function TemplateText(s: Option<string>): string
  {
    if s.Some? then s.value else "null"
  }

  /** The explorer link of a transaction: no sub-domain on mainnet, the network's name otherwise. */
  function ExplorerUrl(network: Option<string>, hash: string): string
  {
    "https://" + (if network == Some(NetworkMainnet) then "" else TemplateText(network) + ".") + "etherscan.io/tx/" + hash
  }

  lemma ExplorerUrlByNetwork(network: Option<string>, hash: string)
    ensures network == Some(NetworkMainnet) ==> ExplorerUrl(network, hash) == "https://etherscan.io/tx/" + hash
    ensures network.Some? && network.value != NetworkMainnet ==>
              ExplorerUrl(network, hash) == "https://" + network.value + ".etherscan.io/tx/" + hash
  {
    assert "https://" + "" == "https://";
    if network.Some? && network.value != NetworkMainnet {
      assert "https://" + (network.value + ".") + "etherscan.io/tx/" + hash
             == "https://" + network.value + ".etherscan.io/tx/" + hash;
    }
  }

  datatype ContentKind = TxContent | ErrorContent | SuccessContent

  /** The `TYPES` map: a notification type to its content component. */
  function ContentFor(kind: string): (c: Option<ContentKind>)
    ensures c.Some? <==> kind in {"tx", "error", "success"}
  {
    if kind == "tx" then Some(TxContent)
    else if kind == "error" then Some(ErrorContent)
    else if kind == "success" then Some(SuccessContent)
    else None
  }

  /** The class table: a notification type to its background class. */
  function ClassFor(kind: string): (c: Option<string>)
    ensures c.Some? <==> ContentFor(kind).Some?
  {
    if kind == "tx" then Some("tx")
    else if kind == "error" then Some("error")
    else if kind == "success" then Some("success")
    else None
  }

  /** Rendered text: a transaction's description and link, an error's message, or a success's title
      and message. */
  datatype Body =
    | TxBody(description: string, href: string)
    | ErrorBody(message: string)
    | SuccessBody(title: string, message: string)

  datatype View = View(cssClass: string, body: Body)

  /** The notification component; None where the non-null assertions on the lookups fail. */
  function Render(p: Payload, network: Option<string>): (v: Option<View>)
    ensures v.Some? <==> ContentFor(p.kind).Some?
  {
    match ContentFor(p.kind)
    case None => None
    case Some(TxContent) => Some(View(ClassFor(p.kind).value, TxBody(Field(p, "description"), ExplorerUrl(network, Field(p, "hash")))))
    case Some(ErrorContent) => Some(View(ClassFor(p.kind).value, ErrorBody(Field(p, "message"))))
    case Some(SuccessContent) => Some(View(ClassFor(p.kind).value, SuccessBody(Field(p, "title"), Field(p, "message"))))
  }

  /** Every notification the context enqueues renders, in its own class, showing what it was given. */
  lemma EnqueuedRenders(n: Notification, network: Option<string>)
    ensures Render(Enqueued(n), network) == Some(match n
      case TxNote(d, h) => View("tx", TxBody(d, ExplorerUrl(network, h)))
      case ErrorNote(m) => View("error", ErrorBody(m))
      case SuccessNote(t, m) => View("success", SuccessBody(t, m)))
  {
  }

  /** Any other type is unsupported. */
  lemma OtherKindsUnsupported(p: Payload, network: Option<string>)
    requires p.kind != "tx" && p.kind != "error" && p.kind != "success"
    ensures Render(p, network) == None && ClassFor(p.kind) == None
  {
  }

  /** `closeSnackbar(id)`: dismisses exactly the snackbar with that key. */
  function Dismiss(open: seq<nat>, id: nat): (rest: seq<nat>)
    ensures forall k :: k in rest <==> k in open && k != id
    ensures id !in open ==> rest == open
  {
    if |open| == 0 then []
    else (if open[0] == id then [] else [open[0]]) + Dismiss(open[1..], id)
  }
}
