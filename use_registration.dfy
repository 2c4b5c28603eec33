/**
 * The registration hook (src/hooks/useRegistration.tsx): the store-name
 * lookup and `handleSpin`, an ordered, fail-closed pipeline of validation,
 * voucher upload, URL normalisation, registration and reply interpretation.
 */
module UseRegistration {
  import opened Wrappers
  import opened Js

  const UploadsBase: string := "https://ptm.pe/PremiosApp/uploads_fixed/"
  const MissingStore: string := "Error: No se identificó la tienda."
  const MissingData: string := "\U{26A0}\U{FE0F} Por favor completa todos los datos."

  /** The chosen voucher image (`File`). */
  datatype VoucherFile = VoucherFile(fileName: string)

  /** The PHP upload endpoint's reply; a rejected fetch or JSON parse is
      `UploadThrown` with the error's message. */
  datatype UploadReply =
    | UploadThrown(reason: Option<string>)
    | UploadReceived(url: Option<string>, filename: Option<string>, error: Option<string>)

  datatype RegisterPayload = RegisterPayload(
    storeId: string, campaign: string, name: string, phone: string, voucherUrl: string)

  /** `POST /api/v1/register-spin-fixed` */
  datatype RegisterReply =
    | RegisterThrown(reason: Option<string>)
    | RegisterReceived(ok: bool, prize: Option<string>, registerId: Option<string>, message: Option<string>)

  /** A request `handleSpin` sends. */
  datatype Call = Upload(photo: VoucherFile) | Register(payload: RegisterPayload)

  datatype SpinResult = SpinResult(success: bool, prizeName: Option<string>, registerId: Option<string>)

  const Failed: SpinResult := SpinResult(false, None, None)

  /** `GET /api/v1/admin/stores/:id` */
  datatype StoreInfoReply =
    | StoreInfoThrown
    | StoreInfoReceived(ok: bool, success: bool, name: Option<string>)

  /** The front-end checks, in order: a store id first, then the trimmed name
      and phone and the voucher. */
  function Validate(storeId: Option<string>, name: string, phone: string, voucher: Option<VoucherFile>)
    : (r: Option<string>)
    ensures r.None? <==> Truthy(storeId) && !AllSpace(name) && !AllSpace(phone) && voucher.Some?
    ensures !Truthy(storeId) ==> r == Some(MissingStore)
    ensures Truthy(storeId) && r.Some? ==> r == Some(MissingData)
  {
    if !Truthy(storeId) then Some(MissingStore)
    else if Trim(name) == [] || Trim(phone) == [] || voucher.None? then Some(MissingData)
    else None
  }

  /** The normalised voucher URL: the reply's `url` when non-empty, else the
      uploads base followed by the file name; none when the reply has
      neither. */
  function VoucherUrl(reply: UploadReply): (r: Option<string>)
    ensures r.None? <==> reply.UploadThrown? || (!Truthy(reply.url) && !Truthy(reply.filename))
    ensures r.Some? && Truthy(reply.url) ==> r == reply.url
    ensures r.Some? && !Truthy(reply.url) ==>
              r.value == UploadsBase + reply.filename.value && UploadsBase < r.value
    ensures r.Some? ==> r.value != []
  {
    match reply
    case UploadThrown(_) => None
    case UploadReceived(url, filename, _) =>
      if !Truthy(url) && !Truthy(filename) then None
      else if Truthy(url) then url
      else Some(UploadsBase + filename.value)
  }

  /** The message a failed upload leaves: the thrown error's message, or the
      reply's `error`, each with its default. An upload fails exactly when it
      yields no voucher URL. */
  function UploadFailure(reply: UploadReply): (r: Option<string>)
    ensures r.None? <==> VoucherUrl(reply).Some?
    ensures r.Some? ==> r.value != []
  {
    match reply
    case UploadThrown(reason) => Some(Or(reason, "\U{274C} Error de conexión."))
    case UploadReceived(url, filename, error) =>
      if !Truthy(url) && !Truthy(filename) then Some(Or(error, "Error al subir la imagen.")) else None
  }

  /** What the register reply makes of the attempt: success, with the prize
      and the registration id, exactly when the reply is ok. */
  function RegisterResult(reply: RegisterReply): (result: SpinResult)
    ensures result.success <==> reply.RegisterReceived? && reply.ok
    ensures result.success ==> result.prizeName == reply.prize && result.registerId == reply.registerId
    ensures !result.success ==> result == Failed
  {
    if reply.RegisterReceived? && reply.ok then SpinResult(true, reply.prize, reply.registerId) else Failed
  }

  /** The message the register step leaves; none on success. */
  function RegisterMessage(reply: RegisterReply): (m: Option<string>)
    ensures m.None? <==> RegisterResult(reply).success
    ensures m.Some? ==> m.value != []
    ensures reply.RegisterReceived? && !reply.ok ==>
              m == Some("\U{26A0}\U{FE0F} " + Or(reply.message, "Error al procesar el giro."))
  {
    match reply
    case RegisterThrown(reason) => Some(Or(reason, "\U{274C} Error de conexión."))
    case RegisterReceived(ok, _, _, message) =>
      if ok then None else Some("\U{26A0}\U{FE0F} " + Or(message, "Error al procesar el giro."))
  }

  /** What one attempt produces: its result, the requests it sends, in
      order, and the message it leaves. */
  datatype Attempt = Attempt(result: SpinResult, calls: seq<Call>, message: string)

  /** The pipeline of `handleSpin` over the hook's fields and the replies it
      would get. A failed validation sends nothing; past it, the upload is
      sent first and the registration only when the upload yields a voucher
      URL; the message is empty after a success. */
  function SpinAttempt(storeId: Option<string>, campaign: string, name: string, phone: string,
                       voucher: Option<VoucherFile>, upload: UploadReply, register: RegisterReply)
    : (a: Attempt)
    ensures Validate(storeId, name, phone, voucher).Some? ==>
              a == Attempt(Failed, [], Validate(storeId, name, phone, voucher).value)
    ensures Validate(storeId, name, phone, voucher).None? && UploadFailure(upload).Some? ==>
              a == Attempt(Failed, [Upload(voucher.value)], UploadFailure(upload).value)
    ensures Validate(storeId, name, phone, voucher).None? && UploadFailure(upload).None? ==>
              a.calls == [Upload(voucher.value),
                          Register(RegisterPayload(storeId.value, campaign, name, phone, VoucherUrl(upload).value))] &&
              a.result == RegisterResult(register) && a.message == RegisterMessage(register).GetOr("")
    ensures a.result.success ==>
              a.message == "" && |a.calls| == 2 && a.calls[1].Register? &&
              a.result == RegisterResult(register)
    ensures !a.result.success ==> a.result == Failed && a.message != []
  {
    var invalid := Validate(storeId, name, phone, voucher);
    if invalid.Some? then Attempt(Failed, [], invalid.value)
    else
      var uploadFailure := UploadFailure(upload);
      if uploadFailure.Some? then Attempt(Failed, [Upload(voucher.value)], uploadFailure.value)
      else
        var payload := RegisterPayload(storeId.value, campaign, name, phone, VoucherUrl(upload).value);
        Attempt(RegisterResult(register), [Upload(voucher.value), Register(payload)],
                RegisterMessage(register).GetOr(""))
  }

  /** An attempt that reaches the result page: it passes validation, the
      upload yields a voucher URL, and the register reply is ok with a
      non-empty prize name. */
  predicate Wins(storeId: Option<string>, campaign: string, name: string, phone: string,
                 voucher: Option<VoucherFile>, upload: UploadReply, register: RegisterReply)
  {
    Validate(storeId, name, phone, voucher).None? && UploadFailure(upload).None? &&
    register.RegisterReceived? && register.ok && Truthy(register.prize)
  }

  /** The pages go to `/exit` exactly for an attempt that succeeds with a
      prize name, and that prize name and registration id are the register
      reply's. */
  lemma WinsExactly(storeId: Option<string>, campaign: string, name: string, phone: string,
                    voucher: Option<VoucherFile>, upload: UploadReply, register: RegisterReply)
    ensures var r := SpinAttempt(storeId, campaign, name, phone, voucher, upload, register).result;
            (r.success && Truthy(r.prizeName) <==> Wins(storeId, campaign, name, phone, voucher, upload, register)) &&
            (r.success ==> r.prizeName == register.prize && r.registerId == register.registerId)
  {
  }

  class Registration {
    /** The `:storeId` route parameter. */
    const storeId: Option<string>
    /** `CAMPAIGN_ID`, a build-time constant. */
    const campaign: string
    var loading: bool
    var message: string
    var storeName: string
    var name: string
    var phone: string
    var voucher: Option<VoucherFile>

    constructor (storeId: Option<string>, campaign: string)
      ensures this.storeId == storeId && this.campaign == campaign
      ensures !loading && message == "" && storeName == "" && name == "" && phone == ""
      ensures voucher == None
    {
      this.storeId := storeId;
      this.campaign := campaign;
      loading := false;
      message := "";
      storeName := "";
      name := "";
      phone := "";
      voucher := None;
    }

    /** The store-name effect: only an ok, successful reply with data, for a
        page that has a store id, sets the name; anything else keeps it. */
    method LoadStoreName(reply: StoreInfoReply)
      modifies this`storeName
      ensures Truthy(storeId) && reply.StoreInfoReceived? && reply.ok && reply.success && reply.name.Some? ==>
                storeName == reply.name.value
      ensures !(Truthy(storeId) && reply.StoreInfoReceived? && reply.ok && reply.success && reply.name.Some?) ==>
                storeName == old(storeName)
    {
      if !Truthy(storeId) {
        return;
      }
      match reply {
        case StoreInfoThrown =>
        case StoreInfoReceived(ok, success, n) =>
          if ok && success && n.Some? {
            storeName := n.value;
          }
      }
    }

    method SetName(value: string)
      modifies this`name
      ensures name == value
    {
      name := value;
    }

    method SetPhone(value: string)
      modifies this`phone
      ensures phone == value
    {
      phone := value;
    }

    method SetVoucher(value: Option<VoucherFile>)
      modifies this`voucher
      ensures voucher == value
    {
      voucher := value;
    }

    /** `handleSpin`: the attempt `SpinAttempt` describes. `message` is
        cleared first; `loading` is left alone by a failed validation and
        is false again on every later exit. */
    method HandleSpin(upload: UploadReply, register: RegisterReply) returns (result: SpinResult, calls: seq<Call>)
      modifies this`loading, this`message
      ensures Attempt(result, calls, message) == SpinAttempt(storeId, campaign, name, phone, voucher, upload, register)
      ensures Validate(storeId, name, phone, voucher).Some? ==> loading == old(loading)
      ensures Validate(storeId, name, phone, voucher).None? ==> !loading
    {
      message := "";
      var invalid := Validate(storeId, name, phone, voucher);
      if invalid.Some? {
        message := invalid.value;
        return Failed, [];
      }
      loading := true;
      var uploadFailure := UploadFailure(upload);
      if uploadFailure.Some? {
        message := uploadFailure.value;
        result, calls := Failed, [Upload(voucher.value)];
      } else {
        var payload := RegisterPayload(storeId.value, campaign, name, phone, VoucherUrl(upload).value);
        result, calls := RegisterResult(register), [Upload(voucher.value), Register(payload)];
        message := RegisterMessage(register).GetOr("");
      }
      loading := false;
    }
  }
}
