/** The signature scheme of the gateway's callbacks: HMAC-SHA256 keyed with
    the client secret, compared with `hash_equals`. The webhook signs the raw
    request body; the redirect signs the seven result fields run together
    without a separator. HMAC itself is a parameter: nothing here depends on
    how the digest is computed. */
module Signature {
  import opened Wrappers

  /** `hash_hmac('sha256', message, key)` as lowercase hex, written
      key first: `hmac(key, message)`. */
  type Hmac = (string, string) -> string

  /** `hash_equals(hmac(key, message), received)`: true exactly when the
      received digest is the computed one. A digest of another length is
      simply unequal. Timing behaviour is not expressible here. */
  predicate Verify(hmac: Hmac, key: string, message: string, received: string)
  {
    hmac(key, message) == received
  }

  /** The signed redirect fields, in the order they are concatenated. */
  const RedirectFields: seq<string> :=
    ["idTransaccion", "monto", "esReal", "formaPago", "esAprobada", "codigoAutorizacion", "mensaje"]

  /** `$params[key] ?? ''`. */
  function FieldOr(params: map<string, string>, key: string): string
  {
    if key in params then params[key] else ""
  }

  /** The message the redirect hash is computed over. */
  function RedirectMessage(params: map<string, string>): (m: string)
    ensures |m| == |FieldOr(params, "idTransaccion")| + |FieldOr(params, "monto")|
                 + |FieldOr(params, "esReal")| + |FieldOr(params, "formaPago")|
                 + |FieldOr(params, "esAprobada")| + |FieldOr(params, "codigoAutorizacion")|
                 + |FieldOr(params, "mensaje")|
    ensures m[..|FieldOr(params, "idTransaccion")|] == FieldOr(params, "idTransaccion")
    ensures m[|m| - |FieldOr(params, "mensaje")|..] == FieldOr(params, "mensaje")
  {
    FieldOr(params, "idTransaccion") +
    FieldOr(params, "monto") +
    FieldOr(params, "esReal") +
    FieldOr(params, "formaPago") +
    FieldOr(params, "esAprobada") +
    FieldOr(params, "codigoAutorizacion") +
    FieldOr(params, "mensaje")
  }

  /** Parameters outside the seven signed fields do not change the message. */
  lemma RedirectMessageIgnoresOtherKeys(p: map<string, string>, q: map<string, string>)
    requires forall k :: k in RedirectFields ==> FieldOr(p, k) == FieldOr(q, k)
    ensures RedirectMessage(p) == RedirectMessage(q)
  {
  }

  /** A missing field reads as the empty string: with only the transaction
      id and the amount present, the message is those two run together. */
  lemma RedirectMissingFieldsAreEmpty(id: string, amount: string)
    ensures RedirectMessage(map["idTransaccion" := id, "monto" := amount]) == id + amount
  {
  }

  /** With no delimiter, characters moved across the boundary between the
      amount and the `esReal` flag leave the message unchanged. */
  lemma RedirectBoundaryIsAmbiguous(p: map<string, string>)
    ensures RedirectMessage(p["monto" := "1"]["esReal" := "23"])
         == RedirectMessage(p["monto" := "12"]["esReal" := "3"])
  {
    var a := p["monto" := "1"]["esReal" := "23"];
    var b := p["monto" := "12"]["esReal" := "3"];
    assert FieldOr(a, "monto") + FieldOr(a, "esReal") == FieldOr(b, "monto") + FieldOr(b, "esReal");
    assert FieldOr(a, "idTransaccion") == FieldOr(b, "idTransaccion");
    assert FieldOr(a, "formaPago") == FieldOr(b, "formaPago");
    assert FieldOr(a, "esAprobada") == FieldOr(b, "esAprobada");
    assert FieldOr(a, "codigoAutorizacion") == FieldOr(b, "codigoAutorizacion");
    assert FieldOr(a, "mensaje") == FieldOr(b, "mensaje");
  }

  /** The parameters of a complete approved VISA transaction. */
  const ExampleParams: map<string, string> :=
    map["idTransaccion" := "txn_123", "monto" := "100.00", "esReal" := "1",
        "formaPago" := "VISA", "esAprobada" := "1",
        "codigoAutorizacion" := "AUTH123", "mensaje" := "Transaccion Aprobada"]

  /** The redirect message of that transaction. */
  lemma RedirectMessageExample()
    ensures RedirectMessage(ExampleParams) == "txn_123100.001VISA1AUTH123Transaccion Aprobada"
  {
    var p := ExampleParams;
    assert RedirectMessage(p) == "txn_123" + "100.00" + "1" + "VISA" + "1" + "AUTH123" + "Transaccion Aprobada" by {
      assert FieldOr(p, "idTransaccion") == "txn_123";
      assert FieldOr(p, "monto") == "100.00";
      assert FieldOr(p, "esReal") == "1";
      assert FieldOr(p, "formaPago") == "VISA";
      assert FieldOr(p, "esAprobada") == "1";
      assert FieldOr(p, "codigoAutorizacion") == "AUTH123";
      assert FieldOr(p, "mensaje") == "Transaccion Aprobada";
    }
  }
}
