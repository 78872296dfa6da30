/**
 * The delivery page of the cart: a reactive form with the delivery address
 * and the receiver, the order total, and the "Ir a Pagar" button that only
 * goes on when every control passes its validators.
 *
 * Prices are integer cents.  The form's values are the text the user typed;
 * Angular's validators are written out: `Validators.required` fails on "",
 * `Validators.minLength(n)` and `Validators.pattern(p)` pass on "" and
 * otherwise test the value.  The alerts are returned as text; the console
 * output is not modelled.
 */
module Envio {
  import opened Options

  const MSG_INCOMPLETE := "Por favor completa todos los campos obligatorios (*)"
  const MSG_GOING_TO_PAY := "Dirección guardada. Yendo al pago..."

  /** The subtotal and the delivery fee, in cents (15.90 and 5.00). */
  const SUBTOTAL := 1590
  const DELIVERY_FEE := 500

  datatype DeliveryForm = DeliveryForm(
    ciudad: string,
    distrito: string,
    direccion: string,
    nro: string,
    telefono: string,
    referencia: string,
    nombreRecibe: string)

  /** The values the form starts with. */
  const INITIAL_FORM := DeliveryForm("Lima", "Miraflores", "", "", "", "", "Usuario Actual")

  /** The controls that carry validators. */
  const VALIDATED_FIELDS := {"ciudad", "distrito", "direccion", "telefono", "nombreRecibe"}

  /** `Validators.required` on a text value. */
  predicate Required(v: string) {
    v != ""
  }

  /** `Validators.minLength(n)`: an empty value passes. */
  predicate MinLength(v: string, n: nat) {
    v == "" || |v| >= n
  }

  predicate IsAsciiDigit(c: char) {
    '0' <= c <= '9'
  }

  /** The regular expression `^[0-9]{9}$`. */
  predicate NineDigits(v: string) {
    |v| == 9 && forall i :: 0 <= i < |v| ==> IsAsciiDigit(v[i])
  }

  /** `Validators.pattern(/^[0-9]{9}$/)`: an empty value passes. */
  predicate PhonePattern(v: string) {
    v == "" || NineDigits(v)
  }

  /** The names of the controls whose validators fail; the form is invalid
      exactly when there is one. */
  function InvalidFields(f: DeliveryForm): (bad: set<string>)
    ensures bad <= VALIDATED_FIELDS
    ensures "ciudad" in bad <==> f.ciudad == ""
    ensures "distrito" in bad <==> f.distrito == ""
    ensures "direccion" in bad <==> |f.direccion| < 5
    ensures "telefono" in bad <==> !NineDigits(f.telefono)
    ensures "nombreRecibe" in bad <==> f.nombreRecibe == ""
  {
    (if Required(f.ciudad) then {} else {"ciudad"})
    + (if Required(f.distrito) then {} else {"distrito"})
    + (if Required(f.direccion) && MinLength(f.direccion, 5) then {} else {"direccion"})
    + (if Required(f.telefono) && PhonePattern(f.telefono) then {} else {"telefono"})
    + (if Required(f.nombreRecibe) then {} else {"nombreRecibe"})
  }

  predicate FormValid(f: DeliveryForm) {
    InvalidFields(f) == {}
  }

  class EnvioComponent {
    const subtotal: int
    const costoEnvio: int
    var total: int
    /** `envioForm`, absent until the form is built. */
    var envioForm: Option<DeliveryForm>
    /** Whether `markAllAsTouched` has run. */
    var allTouched: bool

    constructor()
      ensures subtotal == SUBTOTAL && costoEnvio == DELIVERY_FEE && total == 0
      ensures envioForm.None? && !allTouched
    {
      subtotal := SUBTOTAL;
      costoEnvio := DELIVERY_FEE;
      total := 0;
      envioForm := None;
      allTouched := false;
    }

    method NgOnInit()
      modifies this
      ensures envioForm == Some(INITIAL_FORM) && total == subtotal + costoEnvio
      ensures allTouched == old(allTouched)
    {
      IniciarFormulario();
      CalcularTotal();
    }

    method IniciarFormulario()
      modifies this
      ensures envioForm == Some(INITIAL_FORM)
      ensures total == old(total) && allTouched == old(allTouched)
    {
      envioForm := Some(INITIAL_FORM);
    }

    method CalcularTotal()
      modifies this
      ensures total == subtotal + costoEnvio
      ensures envioForm == old(envioForm) && allTouched == old(allTouched)
    {
      total := subtotal + costoEnvio;
    }

    /** What the user types into the controls. */
    method SetFormValue(f: DeliveryForm)
      requires envioForm.Some?
      modifies this
      ensures envioForm == Some(f)
      ensures total == old(total) && allTouched == old(allTouched)
    {
      envioForm := Some(f);
    }

    /** "Ir a Pagar": an invalid form is marked as touched and stops with the
        first alert; a valid one gives its values and the second alert. */
    method IrAPagar() returns (alertText: string, datosEnvio: Option<DeliveryForm>)
      requires envioForm.Some?
      modifies this
      ensures envioForm == old(envioForm) && total == old(total)
      ensures !FormValid(envioForm.value) ==>
                allTouched && alertText == MSG_INCOMPLETE && datosEnvio.None?
      ensures FormValid(envioForm.value) ==>
                allTouched == old(allTouched) && alertText == MSG_GOING_TO_PAY && datosEnvio == envioForm
    {
      if InvalidFields(envioForm.value) != {} {
        allTouched := true;
        return MSG_INCOMPLETE, None;
      }
      alertText := MSG_GOING_TO_PAY;
      datosEnvio := envioForm;
    }
  }

  /** A form passes exactly when the required texts are present, the address
      has at least five characters and the phone is nine ASCII digits. */
  lemma FormValidIff(f: DeliveryForm)
    ensures FormValid(f) <==>
              && f.ciudad != "" && f.distrito != "" && f.nombreRecibe != ""
              && |f.direccion| >= 5 && NineDigits(f.telefono)
  {
    if !FormValid(f) {
      var x :| x in InvalidFields(f);
      assert x in VALIDATED_FIELDS;
    }
  }

  /** The street number and the reference are never checked. */
  lemma OptionalFieldsIgnored(f: DeliveryForm, nro: string, referencia: string)
    ensures InvalidFields(f.(nro := nro, referencia := referencia)) == InvalidFields(f)
  {
  }

  /** The prefilled city, district and receiver pass; the empty address and
      phone are exactly what keeps the initial form from being sent. */
  lemma InitialFormInvalid()
    ensures InvalidFields(INITIAL_FORM) == {"direccion", "telefono"}
    ensures !FormValid(INITIAL_FORM)
  {
    var bad := InvalidFields(INITIAL_FORM);
    assert "direccion" in bad && "telefono" in bad;
    assert "ciudad" !in bad && "distrito" !in bad && "nombreRecibe" !in bad;
    assert bad == {"direccion", "telefono"} by {
      forall x | x in bad ensures x == "direccion" || x == "telefono" {
        assert x in VALIDATED_FIELDS;
      }
    }
  }

  /** Filling the address and the phone is enough to pass. */
  lemma InitialFormCompleted(direccion: string, telefono: string)
    requires |direccion| >= 5 && NineDigits(telefono)
    ensures FormValid(INITIAL_FORM.(direccion := direccion, telefono := telefono))
  {
    FormValidIff(INITIAL_FORM.(direccion := direccion, telefono := telefono));
  }
}
