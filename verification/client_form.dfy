/**
 * The client registration form (src/components/ClientForm.tsx): the draft
 * record and its error report, the CPF input mask, the validation pass, the
 * edits to the phone list, and the shaping of the payload that is sent to
 * the create or update endpoint.
 *
 * The React component's state (`formData`, `errors`, and the
 * `isSubmitting` flag it receives from its parent) is the class
 * `ClientFormState`; every event handler is one of its methods. The pure
 * pieces (the CPF mask, the payload, the classification of a server error)
 * are functions, and the validation pass is a method over the draft.
 */
module ClientForm {
  import opened Optional
  import opened Strings
  import EmailPattern

  // ---------------------------------------------------------------------
  // The draft record
  // ---------------------------------------------------------------------

  datatype Telefone = Telefone(id: Option<int>, ddd: string, numero: string)

  datatype Endereco = Endereco(
    id: Option<int>,
    estado: string,
    cidade: string,
    bairro: string,
    rua: string,
    numero: string,
    codigoPostal: string,
    informacoesAdicionais: Option<string>)

  datatype Cliente = Cliente(
    id: Option<int>,
    nome: string,
    nomeSocial: Option<string>,
    email: Option<string>,
    cpf: string,
    endereco: Endereco,
    telefones: seq<Telefone>,
    createdAt: Option<string>,
    updatedAt: Option<string>)

  /** The blank phone row the form starts with and adds. */
  const EmptyTelefone := Telefone(None, "", "")

  const InitialEndereco := Endereco(None, "", "", "", "", "", "", Some(""))

  /** The draft of a new client: blank fields and one blank phone row. */
  const InitialCliente :=
    Cliente(None, "", Some(""), Some(""), "", InitialEndereco, [EmptyTelefone], None, None)

  /** JavaScript truthiness of an optional string: present and non-empty. */
  predicate Truthy(o: Option<string>) {
    o.Some? && o.value != ""
  }

  /** `o || ''`. */
  function OrEmpty(o: Option<string>): (s: string)
    ensures s == "" <==> !Truthy(o)
    ensures Truthy(o) ==> s == o.value
  {
    if Truthy(o) then o.value else ""
  }

  /** `o || undefined`: an empty string becomes absent. */
  function OrAbsent(o: Option<string>): (r: Option<string>)
    ensures r.Some? <==> Truthy(o)
    ensures r.Some? ==> r == o
  {
    if Truthy(o) then o else None
  }

  /** JavaScript truthiness of a numeric id: present and not 0. */
  predicate IdTruthy(id: Option<int>) {
    id.Some? && id.value != 0
  }

  // ---------------------------------------------------------------------
  // The CPF input mask (`formatCPF`)
  // ---------------------------------------------------------------------

  function Min(a: int, b: int): int {
    if a <= b then a else b
  }

  /**
   * Applied on every keystroke: keeps the digits and regroups them as
   * `XXX.XXX.XXX-XX`, filling the groups from the left. With more than 11
   * digits the anchored pattern `^(\d{0,3})(\d{0,3})(\d{0,3})(\d{0,2})$`
   * does not match and the input is returned as it is.
   */
  function FormatCPF(value: string): (r: string)
    ensures |Digits(value)| <= 11 ==> |r| <= 14
    ensures |Digits(value)| > 11 ==> r == value
  {
    var cleaned := Digits(value);
    if |cleaned| > 11 then value
    else
      var n := |cleaned|;
      // the groups the greedy pattern captures
      var g1, g2, g3, g4 := cleaned[..Min(3, n)], cleaned[Min(3, n)..Min(6, n)],
                            cleaned[Min(6, n)..Min(9, n)], cleaned[Min(9, n)..];
      g1 + (if g2 != "" then "." + g2 else "")
         + (if g3 != "" then "." + g3 else "")
         + (if g4 != "" then "-" + g4 else "")
  }

  /** What position `k` of the mask `XXX.XXX.XXX-XX` holds. */
  predicate MaskSlot(k: int, c: char) {
    if k == 3 || k == 7 then c == '.'
    else if k == 11 then c == '-'
    else IsDigit(c)
  }

  /**
   * A left-to-right filling of `XXX.XXX.XXX-XX`: every position holds what
   * the mask holds there, and a separator is present only when a digit
   * follows it (the text never ends in a separator).
   */
  predicate IsPartialCpfMask(r: string) {
    && |r| <= 14 && |r| != 4 && |r| != 8 && |r| != 12
    && forall k :: 0 <= k < |r| ==> MaskSlot(k, r[k])
  }

  /** Number of separators a mask holding `n` digits shows. */
  function Separators(n: nat): nat {
    (if n > 3 then 1 else 0) + (if n > 6 then 1 else 0) + (if n > 9 then 1 else 0)
  }

  /** A separator followed by a group of digits contributes that group. */
  lemma DigitsAfterSeparator(x: string, sep: char, g: string)
    requires !IsDigit(sep) && AllDigits(g)
    ensures Digits(x + ([sep] + g)) == Digits(x) + g
  {
    DigitsAppend([sep], g);
    DigitsOfNonDigit(sep);
    DigitsAppend(x, [sep] + g);
  }

  /** The output of the mask for each number of digits, written out group by group. */
  lemma FormatCPFGroups(value: string)
    requires |Digits(value)| <= 11
    ensures var d, r := Digits(value), FormatCPF(value);
      && (|d| <= 3 ==> r == d)
      && (3 < |d| <= 6 ==> r == d[..3] + (['.'] + d[3..]))
      && (6 < |d| <= 9 ==> r == d[..3] + (['.'] + d[3..6]) + (['.'] + d[6..]))
      && (9 < |d| ==> r == d[..3] + (['.'] + d[3..6]) + (['.'] + d[6..9]) + (['-'] + d[9..]))
  {
  }

  /** Two groups of digits joined by a separator: the separator is dropped. */
  lemma DigitsOfTwoGroups(d: string, sep: char, i: nat)
    requires AllDigits(d) && !IsDigit(sep) && i <= |d|
    ensures Digits(d[..i] + ([sep] + d[i..])) == d
  {
    DigitsAfterSeparator(d[..i], sep, d[i..]);
    assert d[..i] + d[i..] == d;
  }

  /** Three groups of digits joined by `.` separators: the separators are dropped. */
  lemma DigitsOfThreeGroups(d: string)
    requires AllDigits(d) && 6 <= |d|
    ensures Digits(d[..3] + (['.'] + d[3..6]) + (['.'] + d[6..])) == d
  {
    var q := d[..6];
    DigitsOfTwoGroups(q, '.', 3);
    assert q[..3] == d[..3] && q[3..] == d[3..6];
    DigitsAfterSeparator(q[..3] + (['.'] + q[3..]), '.', d[6..]);
    assert q + d[6..] == d;
  }

  /** The four groups of a complete mask: the separators are dropped. */
  lemma DigitsOfFourGroups(d: string)
    requires AllDigits(d) && 9 <= |d|
    ensures Digits(d[..3] + (['.'] + d[3..6]) + (['.'] + d[6..9]) + (['-'] + d[9..])) == d
  {
    var p := d[..9];
    DigitsOfThreeGroups(p);
    assert p[..3] == d[..3] && p[3..6] == d[3..6] && p[6..] == d[6..9];
    DigitsAfterSeparator(d[..3] + (['.'] + d[3..6]) + (['.'] + d[6..9]), '-', d[9..]);
    assert p + d[9..] == d;
  }

  /** With at most 11 digits, the mask keeps exactly the input's digits, in order. */
  lemma FormatCPFKeepsDigits(value: string)
    requires |Digits(value)| <= 11
    ensures Digits(FormatCPF(value)) == Digits(value)
  {
    var d := Digits(value);
    FormatCPFGroups(value);
    if |d| <= 3 {
    } else if |d| <= 6 {
      DigitsOfTwoGroups(d, '.', 3);
    } else if |d| <= 9 {
      DigitsOfThreeGroups(d);
    } else {
      DigitsOfFourGroups(d);
    }
  }

  /** Two groups: the second starts after the `.` at index 3. */
  lemma TwoGroupsShape(d: string)
    requires AllDigits(d) && 3 < |d| <= 6
    ensures var r := d[..3] + (['.'] + d[3..]);
      IsPartialCpfMask(r) && |r| == |d| + 1
  {
    var r := d[..3] + (['.'] + d[3..]);
    assert forall k :: 4 <= k < |r| ==> r[k] == d[k - 1];
  }

  /** Three groups: separators at indices 3 and 7. */
  lemma ThreeGroupsShape(d: string)
    requires AllDigits(d) && 6 < |d| <= 9
    ensures var r := d[..3] + (['.'] + d[3..6]) + (['.'] + d[6..]);
      IsPartialCpfMask(r) && |r| == |d| + 2
  {
    var r := d[..3] + (['.'] + d[3..6]) + (['.'] + d[6..]);
    assert forall k :: 4 <= k < 7 ==> r[k] == d[k - 1];
    assert forall k :: 8 <= k < |r| ==> r[k] == d[k - 2];
  }

  /** Four groups: separators at indices 3, 7 and 11. */
  lemma FourGroupsShape(d: string)
    requires AllDigits(d) && 9 < |d| <= 11
    ensures var r := d[..3] + (['.'] + d[3..6]) + (['.'] + d[6..9]) + (['-'] + d[9..]);
      IsPartialCpfMask(r) && |r| == |d| + 3
  {
    var r := d[..3] + (['.'] + d[3..6]) + (['.'] + d[6..9]) + (['-'] + d[9..]);
    assert forall k :: 4 <= k < 7 ==> r[k] == d[k - 1];
    assert forall k :: 8 <= k < 11 ==> r[k] == d[k - 2];
    assert forall k :: 12 <= k < |r| ==> r[k] == d[k - 3];
  }

  /**
   * With at most 11 digits the output is a left-to-right filling of the
   * mask, one separator per started group after the first.
   */
  lemma FormatCPFShape(value: string)
    requires |Digits(value)| <= 11
    ensures IsPartialCpfMask(FormatCPF(value))
    ensures |FormatCPF(value)| == |Digits(value)| + Separators(|Digits(value)|)
  {
    var d := Digits(value);
    FormatCPFGroups(value);
    if |d| <= 3 {
    } else if |d| <= 6 {
      TwoGroupsShape(d);
    } else if |d| <= 9 {
      ThreeGroupsShape(d);
    } else {
      FourGroupsShape(d);
    }
  }

  /** A complete CPF (11 digits) is shown as `XXX.XXX.XXX-XX`. */
  lemma FormatCPFComplete(value: string)
    requires |Digits(value)| == 11
    ensures var d := Digits(value);
      FormatCPF(value) == d[..3] + "." + d[3..6] + "." + d[6..9] + "-" + d[9..]
    ensures |FormatCPF(value)| == 14
  {
  }

  /** Reformatting the mask's own output changes nothing. */
  lemma FormatCPFIdempotent(value: string)
    ensures FormatCPF(FormatCPF(value)) == FormatCPF(value)
  {
    if |Digits(value)| <= 11 {
      FormatCPFKeepsDigits(value);
    }
  }

  /** The digits of a partial mask are its characters outside the separator positions. */
  lemma PartialMaskDigits(r: string)
    requires IsPartialCpfMask(r)
    ensures |Digits(r)| == |r| - Separators(|Digits(r)|)
    ensures |Digits(r)| <= 11
  {
    var n := |r|;
    if n <= 3 {
      assert AllDigits(r);
    } else {
      var a := r[..3];
      assert AllDigits(a);
      if n <= 7 {
        var b := r[4..];
        assert AllDigits(b);
        assert r == a + ([r[3]] + b);
        DigitsAfterSeparator(a, r[3], b);
      } else {
        var b := r[4..7];
        var ab := a + ([r[3]] + b);
        assert AllDigits(b);
        DigitsAfterSeparator(a, r[3], b);
        if n <= 11 {
          var c := r[8..];
          assert AllDigits(c);
          assert r == ab + ([r[7]] + c);
          DigitsAfterSeparator(ab, r[7], c);
        } else {
          var c := r[8..11];
          var e := r[12..];
          var abc := ab + ([r[7]] + c);
          assert AllDigits(c) && AllDigits(e);
          assert r == abc + ([r[11]] + e);
          DigitsAfterSeparator(ab, r[7], c);
          DigitsAfterSeparator(abc, r[11], e);
        }
      }
    }
  }

  /** A partial mask is a fixed point of the formatter. */
  lemma PartialMaskIsFixedPoint(r: string)
    requires IsPartialCpfMask(r)
    ensures FormatCPF(r) == r
  {
    PartialMaskDigits(r);
    FormatCPFShape(r);
    FormatCPFKeepsDigits(r);
    var f := FormatCPF(r);
    assert |f| == |r|;
    forall k | 0 <= k < |r| ensures f[k] == r[k] {
      MaskPositionDigit(r, f, k);
    }
  }

  /**
   * Two partial masks of the same length with the same digits agree at
   * every position.
   */
  lemma MaskPositionDigit(r: string, f: string, k: nat)
    requires IsPartialCpfMask(r) && IsPartialCpfMask(f)
    requires |r| == |f| && Digits(r) == Digits(f)
    requires k < |r|
    ensures f[k] == r[k]
  {
    if k != 3 && k != 7 && k != 11 {
      MaskDigitAt(r, k);
      MaskDigitAt(f, k);
    }
  }

  /** The digit at a non-separator position `k` of a partial mask, read through `Digits`. */
  lemma MaskDigitAt(r: string, k: nat)
    requires IsPartialCpfMask(r) && k < |r| && k != 3 && k != 7 && k != 11
    ensures var j := k - (if k > 3 then 1 else 0) - (if k > 7 then 1 else 0) - (if k > 11 then 1 else 0);
      j < |Digits(r)| && Digits(r)[j] == r[k]
  {
    PartialMaskDigits(r);
    var p := r[..k];
    var q := r[k..];
    assert r == p + q;
    DigitsAppend(p, q);
    assert q == [r[k]] + q[1..];
    DigitsAppend([r[k]], q[1..]);
    assert Digits([r[k]]) == [r[k]];
    PrefixMaskDigits(r, k);
  }

  /** A prefix of a partial mask holds one digit per non-separator position. */
  lemma PrefixMaskDigits(r: string, k: nat)
    requires IsPartialCpfMask(r) && k <= |r|
    ensures |Digits(r[..k])| == k - (if k > 3 then 1 else 0) - (if k > 7 then 1 else 0) - (if k > 11 then 1 else 0)
    decreases k
  {
    if k > 0 {
      PrefixMaskDigits(r, k - 1);
      assert r[..k] == r[..k - 1] + [r[k - 1]];
      DigitsAppend(r[..k - 1], [r[k - 1]]);
      assert [r[k - 1]][1..] == [];
    }
  }

  /**
   * The formatter's outputs are exactly the partial masks: any partial mask
   * with the same digits as `value` (at most 11 of them) is `FormatCPF(value)`.
   */
  lemma FormatCPFUnique(value: string, r: string)
    requires |Digits(value)| <= 11
    requires IsPartialCpfMask(r) && Digits(r) == Digits(value)
    ensures r == FormatCPF(value)
  {
    PartialMaskIsFixedPoint(r);
    assert FormatCPF(r) == FormatCPF(value);
  }

  // ---------------------------------------------------------------------
  // Validation (`validateForm`)
  // ---------------------------------------------------------------------

  datatype AddressField = Estado | Cidade | Bairro | Rua | Numero | CodigoPostal

  /** The required address fields, in the order the validation visits them. */
  const RequiredEnderecoFields: seq<AddressField> := [Estado, Cidade, Bairro, Rua, Numero, CodigoPostal]

  /** The property name of an address field. */
  function Key(f: AddressField): string {
    match f
    case Estado => "estado"
    case Cidade => "cidade"
    case Bairro => "bairro"
    case Rua => "rua"
    case Numero => "numero"
    case CodigoPostal => "codigoPostal"
  }

  function FieldValue(e: Endereco, f: AddressField): string {
    match f
    case Estado => e.estado
    case Cidade => e.cidade
    case Bairro => e.bairro
    case Rua => e.rua
    case Numero => e.numero
    case CodigoPostal => e.codigoPostal
  }

  /** The message for a blank address field: its capitalised name, `CEP` for the postal code. */
  function EnderecoMessage(f: AddressField): string {
    Capitalize(if f == CodigoPostal then "CEP" else Key(f)) + " é obrigatório"
  }

  /** How the messages name each address field. */
  function DisplayName(f: AddressField): string {
    match f
    case Estado => "Estado"
    case Cidade => "Cidade"
    case Bairro => "Bairro"
    case Rua => "Rua"
    case Numero => "Numero"
    case CodigoPostal => "CEP"
  }

  /** The message each blank address field produces. */
  lemma EnderecoMessages(f: AddressField)
    ensures EnderecoMessage(f) == DisplayName(f) + " é obrigatório"
  {
    CapitalizedName(f, DisplayName(f));
  }

  /** The message of `f` is `name` followed by ` é obrigatório` when `name` is its capitalised label. */
  lemma CapitalizedName(f: AddressField, name: string)
    requires name != []
    requires var shown := if f == CodigoPostal then "CEP" else Key(f);
      |shown| == |name| && name[0] == ToUpperAscii(shown[0]) && name[1..] == shown[1..]
    ensures EnderecoMessage(f) == name + " é obrigatório"
  {
    var shown := if f == CodigoPostal then "CEP" else Key(f);
    assert Capitalize(shown) == [name[0]] + name[1..];
    assert [name[0]] + name[1..] == name;
  }

  const NomeRequired := "Nome é obrigatório"
  const CpfRequired := "CPF é obrigatório"
  const CpfLength := "CPF deve conter 11 dígitos"
  const EmailInvalid := "Email inválido"
  const TelefoneRequired := "DDD e número são obrigatórios"

  /**
   * The errors the form shows. `endereco` and `telefones` are absent unless
   * some entry failed; `telefones` is indexed like the phone list, a hole
   * (`None`) standing for a row without error.
   */
  datatype FormErrors = FormErrors(
    nome: Option<string>,
    email: Option<string>,
    cpf: Option<string>,
    endereco: Option<map<AddressField, string>>,
    telefones: Option<seq<Option<string>>>)

  const NoErrors := FormErrors(None, None, None, None, None)

  /** A phone row that the form accepts: both parts non-blank. */
  predicate PhoneComplete(t: Telefone) {
    !IsBlank(t.ddd) && !IsBlank(t.numero)
  }

  /** The CPF error: missing digits, then a wrong count. */
  function CpfError(cpf: string): (e: Option<string>)
    ensures e.None? <==> |Digits(cpf)| == 11
    ensures e == Some(CpfRequired) <==> Digits(cpf) == ""
    ensures Digits(cpf) != "" && |Digits(cpf)| != 11 ==> e == Some(CpfLength)
  {
    var digits := Digits(cpf);
    if digits == "" then Some(CpfRequired)
    else if |digits| != 11 then Some(CpfLength)
    else None
  }

  /** The fields of a draft that the form validates, other than the address and the phones. */
  ghost predicate IdentityValid(d: Cliente) {
    && !IsBlank(d.nome)
    && |Digits(d.cpf)| == 11
    && (!Truthy(d.email) || EmailPattern.Matches(d.email.value))
  }

  /**
   * When the form lets a draft through: a non-blank name, an 11-digit CPF,
   * an absent or empty e-mail or one containing a match of
   * `\S+@\S+\.\S+`, the six required address fields non-blank, and every
   * phone row complete.
   */
  ghost predicate FormIsValid(d: Cliente) {
    && IdentityValid(d)
    && (forall f :: !IsBlank(FieldValue(d.endereco, f)))
    && (forall i :: 0 <= i < |d.telefones| ==> PhoneComplete(d.telefones[i]))
  }

  /** `m` is the address error report of `e`. */
  ghost predicate EnderecoErrorsOf(e: Endereco, m: Option<map<AddressField, string>>) {
    && (m.Some? <==> exists f :: IsBlank(FieldValue(e, f)))
    && (m.Some? ==> forall f :: (f in m.value <==> IsBlank(FieldValue(e, f))))
    && (m.Some? ==> forall f :: f in m.value ==> m.value[f] == EnderecoMessage(f))
  }

  /**
   * `t` is the phone error report of `ts`: present exactly when some row is
   * incomplete; then a message at every incomplete row, a hole at every
   * complete one, and no entry after the last incomplete row.
   */
  ghost predicate TelefoneErrorsOf(ts: seq<Telefone>, t: Option<seq<Option<string>>>) {
    && (t.Some? <==> exists i :: 0 <= i < |ts| && !PhoneComplete(ts[i]))
    && (t.Some? ==> 0 < |t.value| <= |ts| && t.value[|t.value| - 1].Some?)
    && (t.Some? ==> forall i :: 0 <= i < |t.value| ==> (t.value[i].Some? <==> !PhoneComplete(ts[i])))
    && (t.Some? ==> forall i :: 0 <= i < |t.value| && t.value[i].Some? ==> t.value[i].value == TelefoneRequired)
    && (t.Some? ==> forall i :: |t.value| <= i < |ts| ==> PhoneComplete(ts[i]))
  }

  /** `e` is the report the validation produces for the draft `d`. */
  ghost predicate ReportsErrorsOf(d: Cliente, e: FormErrors) {
    && e.nome == (if IsBlank(d.nome) then Some(NomeRequired) else None)
    && e.cpf == CpfError(d.cpf)
    && e.email == (if Truthy(d.email) && !EmailPattern.Matches(d.email.value) then Some(EmailInvalid) else None)
    && EnderecoErrorsOf(d.endereco, e.endereco)
    && TelefoneErrorsOf(d.telefones, e.telefones)
  }

  lemma AllAddressFieldsRequired(f: AddressField)
    ensures f in RequiredEnderecoFields
  {
  }

  /** The address errors collected field by field form the address report. */
  lemma AddressReportOf(e: Endereco, m: map<AddressField, string>)
    requires forall f :: f in m <==> IsBlank(FieldValue(e, f))
    requires forall f :: f in m ==> m[f] == EnderecoMessage(f)
    ensures EnderecoErrorsOf(e, if |m| > 0 then Some(m) else None)
  {
    if |m| > 0 {
      assert m != map[];
      var f :| f in m;
      assert IsBlank(FieldValue(e, f));
    } else {
      assert m == map[];
    }
  }

  /** The phone errors collected row by row form the phone report. */
  lemma PhoneReportOf(ts: seq<Telefone>, t: seq<Option<string>>)
    requires |t| <= |ts|
    requires forall i :: 0 <= i < |t| ==> (t[i].Some? <==> !PhoneComplete(ts[i]))
    requires forall i :: 0 <= i < |t| && t[i].Some? ==> t[i].value == TelefoneRequired
    requires forall i :: |t| <= i < |ts| ==> PhoneComplete(ts[i])
    requires t != [] ==> t[|t| - 1].Some?
    ensures TelefoneErrorsOf(ts, if |t| > 0 then Some(t) else None)
  {
    if |t| > 0 {
      assert !PhoneComplete(ts[|t| - 1]);
    }
  }

  /**
   * `a[i] = Some(x)` on a JavaScript array: assigning past the end extends
   * the array, leaving holes before the new entry.
   */
  function AssignAt<T>(a: seq<Option<T>>, i: nat, x: T): (r: seq<Option<T>>)
    ensures |r| == if i < |a| then |a| else i + 1
    ensures r[i] == Some(x)
    ensures forall j :: 0 <= j < |a| && j != i ==> r[j] == a[j]
    ensures forall j :: |a| <= j < |r| && j != i ==> r[j] == None
  {
    if i < |a| then a[i := Some(x)] else a + seq(i - |a|, _ => None) + [Some(x)]
  }

  /**
   * The address part of the validation pass: visits the required fields in
   * order and records the message of every blank one.
   */
  method CollectEnderecoErrors(e: Endereco) returns (enderecoErrors: map<AddressField, string>)
    ensures forall f :: f in enderecoErrors <==> IsBlank(FieldValue(e, f))
    ensures forall f :: f in enderecoErrors ==> enderecoErrors[f] == EnderecoMessage(f)
  {
    enderecoErrors := map[];
    for n := 0 to |RequiredEnderecoFields|
      invariant forall f :: f in enderecoErrors ==> f in RequiredEnderecoFields[..n]
      invariant forall k :: 0 <= k < n ==>
        (RequiredEnderecoFields[k] in enderecoErrors <==> IsBlank(FieldValue(e, RequiredEnderecoFields[k])))
      invariant forall f :: f in enderecoErrors ==> enderecoErrors[f] == EnderecoMessage(f)
    {
      var field := RequiredEnderecoFields[n];
      if Trim(FieldValue(e, field)) == "" {
        enderecoErrors := enderecoErrors[field := EnderecoMessage(field)];
      }
    }
    forall f ensures f in enderecoErrors <==> IsBlank(FieldValue(e, f)) {
      AllAddressFieldsRequired(f);
      assert RequiredEnderecoFields[..|RequiredEnderecoFields|] == RequiredEnderecoFields;
    }
  }

  /**
   * The phone part of the validation pass: visits the rows in order and
   * assigns the message at the index of every incomplete one, so the sparse
   * array ends at the last incomplete row.
   */
  method CollectTelefoneErrors(ts: seq<Telefone>) returns (telefoneErrors: seq<Option<string>>)
    ensures |telefoneErrors| <= |ts|
    ensures forall i :: 0 <= i < |telefoneErrors| ==> (telefoneErrors[i].Some? <==> !PhoneComplete(ts[i]))
    ensures forall i :: 0 <= i < |telefoneErrors| && telefoneErrors[i].Some? ==> telefoneErrors[i].value == TelefoneRequired
    ensures forall i :: |telefoneErrors| <= i < |ts| ==> PhoneComplete(ts[i])
    ensures telefoneErrors != [] ==> telefoneErrors[|telefoneErrors| - 1].Some?
  {
    telefoneErrors := [];
    for index := 0 to |ts|
      invariant |telefoneErrors| <= index
      invariant forall i :: 0 <= i < |telefoneErrors| ==> (telefoneErrors[i].Some? <==> !PhoneComplete(ts[i]))
      invariant forall i :: 0 <= i < |telefoneErrors| && telefoneErrors[i].Some? ==> telefoneErrors[i].value == TelefoneRequired
      invariant forall i :: |telefoneErrors| <= i < index ==> PhoneComplete(ts[i])
      invariant telefoneErrors != [] ==> telefoneErrors[|telefoneErrors| - 1].Some?
    {
      var tel := ts[index];
      if Trim(tel.ddd) == "" || Trim(tel.numero) == "" {
        telefoneErrors := AssignAt(telefoneErrors, index, TelefoneRequired);
      } else {
        assert PhoneComplete(ts[index]);
      }
    }
  }

  /**
   * The validation pass (`validateForm` without its `setErrors`): checks
   * each field and accumulates the error report, the required address
   * fields and then the phone rows in order. The draft is valid exactly
   * when nothing was reported.
   */
  method ComputeErrors(d: Cliente) returns (newErrors: FormErrors, isValid: bool)
    ensures ReportsErrorsOf(d, newErrors)
    ensures isValid <==> FormIsValid(d)
    ensures isValid <==> newErrors == NoErrors
  {
    isValid := true;

    var nomeError: Option<string> := None;
    if Trim(d.nome) == "" {
      nomeError := Some(NomeRequired);
      isValid := false;
    }

    var cpfError: Option<string> := None;
    var cpfDigits := Digits(d.cpf);
    if cpfDigits == "" {
      cpfError := Some(CpfRequired);
      isValid := false;
    } else if |cpfDigits| != 11 {
      cpfError := Some(CpfLength);
      isValid := false;
    }

    var emailError: Option<string> := None;
    if Truthy(d.email) && !EmailPattern.Test(d.email.value) {
      emailError := Some(EmailInvalid);
      isValid := false;
    }
    assert isValid <==> IdentityValid(d);

    var enderecoErrors := CollectEnderecoErrors(d.endereco);
    if |enderecoErrors| > 0 {
      isValid := false;
    }
    var telefoneErrors := CollectTelefoneErrors(d.telefones);
    if |telefoneErrors| > 0 {
      isValid := false;
    }

    newErrors := FormErrors(
      nomeError, emailError, cpfError,
      if |enderecoErrors| > 0 then Some(enderecoErrors) else None,
      if |telefoneErrors| > 0 then Some(telefoneErrors) else None);
    AddressReportOf(d.endereco, enderecoErrors);
    PhoneReportOf(d.telefones, telefoneErrors);
  }

  // ---------------------------------------------------------------------
  // Phone-list editing
  // ---------------------------------------------------------------------

  datatype PhoneField = Ddd | NumeroTelefone

  /** `{ ...t, [field]: value }`. */
  function SetPhoneField(t: Telefone, field: PhoneField, value: string): (u: Telefone)
    ensures u.id == t.id
    ensures field == Ddd ==> u.ddd == value && u.numero == t.numero
    ensures field == NumeroTelefone ==> u.numero == value && u.ddd == t.ddd
  {
    match field
    case Ddd => t.(ddd := value)
    case NumeroTelefone => t.(numero := value)
  }

  /**
   * `s.filter((_, j) => j !== i)`, and `splice(i, 1)` for an index in
   * range: the entry at `i` is gone, the others keep their order.
   */
  function RemoveAt<T>(s: seq<T>, i: nat): (r: seq<T>)
    ensures i < |s| ==> |r| == |s| - 1
    ensures i >= |s| ==> r == s
    ensures forall j :: 0 <= j < i && j < |r| ==> r[j] == s[j]
    ensures forall j :: i <= j < |r| ==> r[j] == s[j + 1]
  {
    if i < |s| then s[..i] + s[i + 1..] else s
  }

  /** `errors.telefones?.[i]` is truthy: row `i` shows an error. */
  predicate PhoneErrorShown(e: FormErrors, i: nat) {
    e.telefones.Some? && i < |e.telefones.value| && Truthy(e.telefones.value[i])
  }

  /** The phone errors after removing row `index`, as the form does it: spliced only when that row showed an error. */
  function ErrorsAfterRemove(e: FormErrors, index: nat): (r: FormErrors)
    ensures PhoneErrorShown(e, index) ==> r.telefones == Some(RemoveAt(e.telefones.value, index))
    ensures PhoneErrorShown(e, index) ==> |r.telefones.value| == |e.telefones.value| - 1
    ensures !PhoneErrorShown(e, index) ==> r == e
    ensures r.(telefones := None) == e.(telefones := None)
  {
    if PhoneErrorShown(e, index) then e.(telefones := Some(RemoveAt(e.telefones.value, index))) else e
  }

  /** The error rows line up with the phone rows: row `i` shows an error exactly when it is incomplete. */
  ghost predicate ErrorRowsMatch(ts: seq<Telefone>, e: FormErrors) {
    forall i :: 0 <= i < |ts| ==> (PhoneErrorShown(e, i) <==> !PhoneComplete(ts[i]))
  }

  /** Right after validation the error rows line up with the phone rows. */
  lemma ValidationAlignsErrorRows(d: Cliente, e: FormErrors)
    requires ReportsErrorsOf(d, e)
    ensures ErrorRowsMatch(d.telefones, e)
  {
    forall i | 0 <= i < |d.telefones| ensures PhoneErrorShown(e, i) <==> !PhoneComplete(d.telefones[i]) {
      if e.telefones.Some? && i < |e.telefones.value| {
        assert e.telefones.value[i].Some? ==> e.telefones.value[i].value == TelefoneRequired;
      }
    }
  }

  /**
   * As written, removing a complete row in front of an incomplete one
   * leaves the error array unspliced, so the incomplete row (now one place
   * up) no longer shows its error.
   */
  lemma RemoveTelefoneMisalignsErrors()
    ensures var ts := [Telefone(None, "11", "12345678"), EmptyTelefone];
      var e := NoErrors.(telefones := Some([None, Some(TelefoneRequired)]));
      && ErrorRowsMatch(ts, e)
      && !ErrorRowsMatch(RemoveAt(ts, 0), ErrorsAfterRemove(e, 0))
  {
    var ts := [Telefone(None, "11", "12345678"), EmptyTelefone];
    var e := NoErrors.(telefones := Some([None, Some(TelefoneRequired)]));
    assert !IsBlank("11") by { assert !IsSpace("11"[0]); }
    assert !IsBlank("12345678") by { assert !IsSpace("12345678"[0]); }
    assert ErrorRowsMatch(ts, e) by {
      forall i | 0 <= i < |ts| ensures PhoneErrorShown(e, i) <==> !PhoneComplete(ts[i]) {
        if i == 0 { assert PhoneComplete(ts[0]); }
      }
    }
    var ts' := RemoveAt(ts, 0);
    assert ts'[0] == EmptyTelefone && !PhoneComplete(ts'[0]);
    assert !PhoneErrorShown(ErrorsAfterRemove(e, 0), 0);
  }

  /**
   * The evidently intended removal: splice the error array whenever it
   * reaches the removed row, so that the rows after it keep their errors.
   */
  function ErrorsAfterRemoveAligned(e: FormErrors, index: nat): (r: FormErrors)
    ensures r.(telefones := None) == e.(telefones := None)
    ensures forall i: nat :: i < index ==> (PhoneErrorShown(r, i) <==> PhoneErrorShown(e, i))
    ensures forall i: nat :: index <= i ==> (PhoneErrorShown(r, i) <==> PhoneErrorShown(e, i + 1))
    ensures e.telefones.Some? && index < |e.telefones.value| ==> r.telefones == Some(RemoveAt(e.telefones.value, index))
    ensures !(e.telefones.Some? && index < |e.telefones.value|) ==> r == e
  {
    if e.telefones.Some? && index < |e.telefones.value| then
      e.(telefones := Some(RemoveAt(e.telefones.value, index)))
    else e
  }

  /** The corrected removal keeps the error rows lined up with the phone rows. */
  lemma AlignedRemoveKeepsErrorRows(ts: seq<Telefone>, e: FormErrors, index: nat)
    requires ErrorRowsMatch(ts, e) && index < |ts|
    ensures ErrorRowsMatch(RemoveAt(ts, index), ErrorsAfterRemoveAligned(e, index))
  {
    var ts' := RemoveAt(ts, index);
    var e' := ErrorsAfterRemoveAligned(e, index);
    forall i | 0 <= i < |ts'| ensures PhoneErrorShown(e', i) <==> !PhoneComplete(ts'[i]) {
      if i < index {
        assert ts'[i] == ts[i];
      } else {
        assert ts'[i] == ts[i + 1];
      }
    }
  }

  // ---------------------------------------------------------------------
  // Submission (`handleSubmit`)
  // ---------------------------------------------------------------------

  datatype EnderecoPayload = EnderecoPayload(
    estado: string,
    cidade: string,
    bairro: string,
    rua: string,
    numero: string,
    codigoPostal: string,
    informacoesAdicionais: Option<string>)

  /** The body sent to the create or update endpoint. */
  datatype Payload = Payload(
    nome: string,
    nomeSocial: Option<string>,
    email: Option<string>,
    cpf: string,
    endereco: EnderecoPayload,
    telefones: seq<Telefone>)

  /** `tel.ddd && tel.numero`: both parts non-empty. */
  predicate PhoneFilled(t: Telefone) {
    t.ddd != "" && t.numero != ""
  }

  /** The phone rows kept for sending: those with both parts filled, in their order. */
  function KeepFilled(ts: seq<Telefone>): (r: seq<Telefone>)
    ensures |r| <= |ts|
    ensures forall t :: t in r ==> t in ts && PhoneFilled(t)
    ensures forall t :: t in ts && PhoneFilled(t) ==> t in r
  {
    if ts == [] then []
    else (if PhoneFilled(ts[0]) then [ts[0]] else []) + KeepFilled(ts[1..])
  }

  /** Filtering distributes over concatenation, so the kept rows keep their relative order. */
  lemma {:induction false} KeepFilledAppend(a: seq<Telefone>, b: seq<Telefone>)
    ensures KeepFilled(a + b) == KeepFilled(a) + KeepFilled(b)
  {
    if a == [] {
      assert a + b == b;
    } else {
      assert (a + b)[1..] == a[1..] + b;
      KeepFilledAppend(a[1..], b);
    }
  }

  /** When every row is filled, the filter keeps all of them. */
  lemma {:induction false} KeepFilledAll(ts: seq<Telefone>)
    requires forall i :: 0 <= i < |ts| ==> PhoneFilled(ts[i])
    ensures KeepFilled(ts) == ts
  {
    if ts != [] {
      KeepFilledAll(ts[1..]);
    }
  }

  /**
   * `dataToSend`: the CPF reduced to its digits, empty optional texts
   * dropped, the address without its id, and only the filled phone rows.
   */
  function DataToSend(d: Cliente): (p: Payload)
    ensures p.cpf == Digits(d.cpf)
    ensures p.nome == d.nome
    ensures p.nomeSocial.Some? <==> Truthy(d.nomeSocial)
    ensures p.email.Some? <==> Truthy(d.email)
    ensures p.endereco.informacoesAdicionais.Some? <==> Truthy(d.endereco.informacoesAdicionais)
    ensures p.endereco.informacoesAdicionais.Some? ==> p.endereco.informacoesAdicionais == d.endereco.informacoesAdicionais
    ensures p.nomeSocial.Some? ==> p.nomeSocial == d.nomeSocial
    ensures p.email.Some? ==> p.email == d.email
    ensures forall f :: FieldValue(d.endereco, f) == PayloadFieldValue(p.endereco, f)
    ensures p.telefones == KeepFilled(d.telefones)
  {
    Payload(
      d.nome,
      OrAbsent(d.nomeSocial),
      OrAbsent(d.email),
      Digits(d.cpf),
      EnderecoPayload(
        d.endereco.estado, d.endereco.cidade, d.endereco.bairro, d.endereco.rua,
        d.endereco.numero, d.endereco.codigoPostal, OrAbsent(d.endereco.informacoesAdicionais)),
      KeepFilled(d.telefones))
  }

  function PayloadFieldValue(e: EnderecoPayload, f: AddressField): string {
    match f
    case Estado => e.estado
    case Cidade => e.cidade
    case Bairro => e.bairro
    case Rua => e.rua
    case Numero => e.numero
    case CodigoPostal => e.codigoPostal
  }

  /**
   * A draft that passes validation is sent with an 11-digit CPF, every
   * required address field non-blank, and every one of its phone rows.
   */
  lemma ValidDraftPayload(d: Cliente)
    requires FormIsValid(d)
    ensures var p := DataToSend(d);
      && |p.cpf| == 11 && AllDigits(p.cpf)
      && (forall f :: !IsBlank(PayloadFieldValue(p.endereco, f)))
      && p.telefones == d.telefones
  {
    forall i | 0 <= i < |d.telefones| ensures PhoneFilled(d.telefones[i]) {
      assert PhoneComplete(d.telefones[i]);
    }
    KeepFilledAll(d.telefones);
  }

  datatype Request = CreateRequest(payload: Payload) | UpdateRequest(id: int, payload: Payload)

  /** Update when the draft has a truthy id (so not for id 0), create otherwise. */
  function RequestFor(d: Cliente): (r: Request)
    ensures r.UpdateRequest? <==> IdTruthy(d.id)
    ensures r.UpdateRequest? ==> r.id == d.id.value
    ensures r.payload == DataToSend(d)
  {
    if IdTruthy(d.id) then UpdateRequest(d.id.value, DataToSend(d)) else CreateRequest(DataToSend(d))
  }

  /** What the server said: saved, or failed with the text of `response.data.error` if any. */
  datatype ServerReply = Saved | Failed(serverError: Option<string>)

  datatype ErrorField = EmailField | CpfField

  /** How the form reacts to the server's reply. */
  datatype Reaction = Succeeded | FieldError(field: ErrorField, message: string) | Alerted(message: string)

  const GenericSaveError := "Erro ao salvar cliente"
  const UnexpectedError := "Erro inesperado: veja o console"

  /**
   * A failed request: a server text mentioning `Email` goes to the e-mail
   * field, else one mentioning `CPF` to the CPF field, else it is alerted;
   * without a server text a generic alert is shown.
   */
  function ClassifyFailure(serverError: Option<string>): (r: Reaction)
    ensures !r.Succeeded?
    ensures r.FieldError? ==> Truthy(serverError) && r.message == serverError.value
    ensures (r.FieldError? && r.field == EmailField) <==> Truthy(serverError) && Contains(serverError.value, "Email")
    ensures (r.FieldError? && r.field == CpfField) <==>
      Truthy(serverError) && !Contains(serverError.value, "Email") && Contains(serverError.value, "CPF")
    ensures r.Alerted? ==> r.message == if Truthy(serverError) then serverError.value else GenericSaveError
  {
    if Truthy(serverError) then
      var message := serverError.value;
      if Contains(message, "Email") then FieldError(EmailField, message)
      else if Contains(message, "CPF") then FieldError(CpfField, message)
      else Alerted(message)
    else Alerted(GenericSaveError)
  }

  /** The alerts shown, in order: every failure first shows the unexpected-error alert. */
  function AlertsShown(r: Reaction): (alerts: seq<string>)
    ensures r.Succeeded? <==> alerts == []
    ensures alerts != [] ==> alerts[0] == UnexpectedError
    ensures r.Alerted? ==> alerts == [UnexpectedError, r.message]
    ensures r.FieldError? ==> alerts == [UnexpectedError]
  {
    match r
    case Succeeded => []
    case FieldError(_, _) => [UnexpectedError]
    case Alerted(m) => [UnexpectedError, m]
  }

  /** The error report after the reaction: a field error replaces that field's entry. */
  function ShowReaction(e: FormErrors, r: Reaction): (e': FormErrors)
    ensures r.FieldError? && r.field == EmailField ==> e' == e.(email := Some(r.message))
    ensures r.FieldError? && r.field == CpfField ==> e' == e.(cpf := Some(r.message))
    ensures !r.FieldError? ==> e' == e
  {
    match r
    case FieldError(EmailField, m) => e.(email := Some(m))
    case FieldError(CpfField, m) => e.(cpf := Some(m))
    case _ => e
  }

  datatype SubmitOutcome =
    | Blocked
    | Sent(request: Request, reaction: Reaction)

  // ---------------------------------------------------------------------
  // The component state
  // ---------------------------------------------------------------------

  /** The inputs routed through `handleChange`, by their `name` attribute. */
  datatype InputName =
    | NomeInput
    | NomeSocialInput
    | EmailInput
    | EnderecoInput(field: AddressField)
    | InformacoesAdicionaisInput

  /** `{ ...e, [field]: value }` on the address. */
  function SetFieldValue(e: Endereco, f: AddressField, value: string): (e': Endereco)
    ensures FieldValue(e', f) == value
    ensures forall g :: g != f ==> FieldValue(e', g) == FieldValue(e, g)
    ensures e'.id == e.id && e'.informacoesAdicionais == e.informacoesAdicionais
  {
    match f
    case Estado => e.(estado := value)
    case Cidade => e.(cidade := value)
    case Bairro => e.(bairro := value)
    case Rua => e.(rua := value)
    case Numero => e.(numero := value)
    case CodigoPostal => e.(codigoPostal := value)
  }

  /** The draft shown when the form opens on `c`, or on a new client when there is none. */
  function LoadedDraft(c: Option<Cliente>): (d: Cliente)
    ensures |d.telefones| >= 1
    ensures c.None? ==> d == InitialCliente
    ensures c.Some? ==> d.id == c.value.id && d.nome == c.value.nome && d.cpf == c.value.cpf
    ensures c.Some? ==> d.endereco == c.value.endereco
    ensures c.Some? ==> d.nomeSocial == Some(OrEmpty(c.value.nomeSocial)) && d.email == Some(OrEmpty(c.value.email))
    ensures c.Some? && c.value.telefones != [] ==> d.telefones == c.value.telefones
    ensures c.Some? && c.value.telefones == [] ==> d.telefones == [EmptyTelefone]
    ensures d.createdAt.None? && d.updatedAt.None?
  {
    match c
    case None => InitialCliente
    case Some(c) =>
      Cliente(
        c.id, c.nome, Some(OrEmpty(c.nomeSocial)), Some(OrEmpty(c.email)), c.cpf, c.endereco,
        if |c.telefones| > 0 then c.telefones else [EmptyTelefone],
        None, None)
  }

  class ClientFormState {
    var formData: Cliente
    var errors: FormErrors
    /** Owned by the parent list and handed down with its setter. */
    var isSubmitting: bool

    /** The phone list is never empty. */
    ghost predicate Valid()
      reads this
    {
      |formData.telefones| >= 1
    }

    /** The initial state: the blank draft, no errors, not submitting. */
    constructor ()
      ensures Valid()
      ensures formData == InitialCliente && errors == NoErrors && !isSubmitting
    {
      formData := InitialCliente;
      errors := NoErrors;
      isSubmitting := false;
    }

    /** The effect run when the client being edited changes: reload the draft and clear every error. */
    method Reset(clienteParaEditar: Option<Cliente>)
      modifies this`formData, this`errors
      ensures Valid()
      ensures formData == LoadedDraft(clienteParaEditar)
      ensures errors == NoErrors
    {
      formData := LoadedDraft(clienteParaEditar);
      errors := NoErrors;
    }

    /** `handleChange`: store the typed value and clear that field's error. */
    method HandleChange(name: InputName, value: string)
      requires Valid()
      modifies this`formData, this`errors
      ensures Valid()
      ensures formData.telefones == old(formData.telefones)
      ensures formData == match name
        case NomeInput => old(formData).(nome := value)
        case NomeSocialInput => old(formData).(nomeSocial := Some(value))
        case EmailInput => old(formData).(email := Some(value))
        case EnderecoInput(f) => old(formData).(endereco := SetFieldValue(old(formData.endereco), f, value))
        case InformacoesAdicionaisInput =>
          old(formData).(endereco := old(formData.endereco).(informacoesAdicionais := Some(value)))
      ensures errors == match name
        case NomeInput => if Truthy(old(errors.nome)) then old(errors).(nome := None) else old(errors)
        case EmailInput => if Truthy(old(errors.email)) then old(errors).(email := None) else old(errors)
        case EnderecoInput(f) =>
          if old(errors.endereco).Some? && f in old(errors.endereco).value && old(errors.endereco).value[f] != ""
          then old(errors).(endereco := Some(old(errors.endereco).value - {f}))
          else old(errors)
        case _ => old(errors)
    {
      match name {
        case NomeInput =>
          formData := formData.(nome := value);
          if Truthy(errors.nome) { errors := errors.(nome := None); }
        case NomeSocialInput =>
          formData := formData.(nomeSocial := Some(value));
        case EmailInput =>
          formData := formData.(email := Some(value));
          if Truthy(errors.email) { errors := errors.(email := None); }
        case EnderecoInput(f) =>
          formData := formData.(endereco := SetFieldValue(formData.endereco, f, value));
          if errors.endereco.Some? && f in errors.endereco.value && errors.endereco.value[f] != "" {
            errors := errors.(endereco := Some(errors.endereco.value - {f}));
          }
        case InformacoesAdicionaisInput =>
          formData := formData.(endereco := formData.endereco.(informacoesAdicionais := Some(value)));
      }
    }

    /** `handleCPFChange`: store the masked value and clear the CPF error. */
    method HandleCPFChange(value: string)
      requires Valid()
      modifies this`formData, this`errors
      ensures Valid()
      ensures formData == old(formData).(cpf := FormatCPF(value))
      ensures errors == if Truthy(old(errors.cpf)) then old(errors).(cpf := None) else old(errors)
    {
      formData := formData.(cpf := FormatCPF(value));
      if Truthy(errors.cpf) {
        errors := errors.(cpf := None);
      }
    }

    /** `handleTelefoneChange`: only `field` of row `index` changes, and only that row's error is cleared. */
    method HandleTelefoneChange(index: nat, field: PhoneField, value: string)
      requires Valid() && index < |formData.telefones|
      modifies this`formData, this`errors
      ensures Valid()
      ensures formData == old(formData).(telefones :=
        old(formData.telefones)[index := SetPhoneField(old(formData.telefones)[index], field, value)])
      ensures errors == if PhoneErrorShown(old(errors), index)
        then old(errors).(telefones := Some(old(errors.telefones).value[index := None]))
        else old(errors)
    {
      var newTelefones := formData.telefones;
      newTelefones := newTelefones[index := SetPhoneField(newTelefones[index], field, value)];
      formData := formData.(telefones := newTelefones);
      if PhoneErrorShown(errors, index) {
        var newTelefoneErrors := errors.telefones.value;
        newTelefoneErrors := newTelefoneErrors[index := None];
        errors := errors.(telefones := Some(newTelefoneErrors));
      }
    }

    /** `addTelefone`: one blank row at the end; nothing else changes. */
    method AddTelefone()
      requires Valid()
      modifies this`formData
      ensures Valid()
      ensures formData == old(formData).(telefones := old(formData.telefones) + [EmptyTelefone])
    {
      formData := formData.(telefones := formData.telefones + [EmptyTelefone]);
    }

    /**
     * `removeTelefone`: with more than one row, row `index` is removed and
     * the error array is spliced at `index` whenever it reaches that row (the
     * corrected splice, see `ErrorsAfterRemoveAligned`); with a single row
     * nothing changes. Error rows that lined up with the phone rows still do.
     */
    method RemoveTelefone(index: nat)
      requires Valid()
      modifies this`formData, this`errors
      ensures Valid()
      ensures |old(formData.telefones)| > 1 ==>
        && formData == old(formData).(telefones := RemoveAt(old(formData.telefones), index))
        && errors == ErrorsAfterRemoveAligned(old(errors), index)
      ensures |old(formData.telefones)| <= 1 ==> formData == old(formData) && errors == old(errors)
      ensures ErrorRowsMatch(old(formData.telefones), old(errors)) && index < |old(formData.telefones)| ==>
        ErrorRowsMatch(formData.telefones, errors)
    {
      if |formData.telefones| > 1 {
        if ErrorRowsMatch(formData.telefones, errors) && index < |formData.telefones| {
          AlignedRemoveKeepsErrorRows(formData.telefones, errors, index);
        }
        formData := formData.(telefones := RemoveAt(formData.telefones, index));
        if errors.telefones.Some? && index < |errors.telefones.value| {
          var newTelefoneErrors := errors.telefones.value;
          newTelefoneErrors := RemoveAt(newTelefoneErrors, index);
          errors := errors.(telefones := Some(newTelefoneErrors));
        }
      }
    }

    /** `validateForm`: replace the error report with the one for the current draft. */
    method ValidateForm() returns (isValid: bool)
      modifies this`errors
      ensures ReportsErrorsOf(formData, errors)
      ensures isValid <==> FormIsValid(formData)
      ensures isValid <==> errors == NoErrors
    {
      var newErrors;
      newErrors, isValid := ComputeErrors(formData);
      errors := newErrors;
    }

    /**
     * `handleSubmit`, given the server's reply: nothing is sent unless the
     * draft validates; otherwise the update or create request is made, the
     * reaction to the reply is recorded, and the submitting flag ends false.
     */
    method HandleSubmit(reply: ServerReply) returns (outcome: SubmitOutcome)
      requires Valid()
      modifies this`errors, this`isSubmitting
      ensures Valid()
      ensures outcome.Blocked? <==> !FormIsValid(formData)
      ensures outcome.Blocked? ==> ReportsErrorsOf(formData, errors) && isSubmitting == old(isSubmitting)
      ensures outcome.Sent? ==> outcome.request == RequestFor(formData) && !isSubmitting
      ensures outcome.Sent? ==>
        outcome.reaction == if reply.Saved? then Succeeded else ClassifyFailure(reply.serverError)
      ensures outcome.Sent? ==> errors == ShowReaction(NoErrors, outcome.reaction)
    {
      var valid := ValidateForm();
      if !valid {
        return Blocked;
      }
      isSubmitting := true;
      var request := RequestFor(formData);
      var reaction;
      match reply {
        case Saved =>
          reaction := Succeeded;
        case Failed(serverError) =>
          reaction := ClassifyFailure(serverError);
          errors := ShowReaction(errors, reaction);
      }
      isSubmitting := false;
      outcome := Sent(request, reaction);
    }
  }
}
