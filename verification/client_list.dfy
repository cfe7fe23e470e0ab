/**
 * The client list (src/components/ClientList.tsx): the records the API
 * returns, the texts the table shows for them (CPF, phones, a one-line
 * address), and the conversion of a record into the draft that the edit
 * form opens with.
 */
module ClientList {
  import opened Optional
  import opened Strings
  import ClientForm

  // ---------------------------------------------------------------------
  // Records as the API returns them
  // ---------------------------------------------------------------------

  datatype TelefoneFromAPI = TelefoneFromAPI(id: int, ddd: string, numero: string)

  datatype EnderecoFromAPI = EnderecoFromAPI(
    id: int,
    estado: string,
    cidade: string,
    bairro: string,
    rua: string,
    numero: string,
    codigoPostal: string,
    informacoesAdicionais: Option<string>)

  /** `null` and an absent property are both `None`. */
  datatype ClienteFromAPI = ClienteFromAPI(
    id: int,
    nome: string,
    nomeSocial: Option<string>,
    email: Option<string>,
    cpf: string,
    endereco: Option<EnderecoFromAPI>,
    telefones: Option<seq<TelefoneFromAPI>>,
    createdAt: string,
    updatedAt: string)

  /**
   * The draft handed to the edit form. Its phone and address entries have
   * the form's own shapes; unlike the form's draft, the address and the
   * phone list may be absent.
   */
  datatype ClienteForForm = ClienteForForm(
    id: Option<int>,
    nome: string,
    nomeSocial: Option<string>,
    email: Option<string>,
    cpf: string,
    endereco: Option<ClientForm.Endereco>,
    telefones: Option<seq<ClientForm.Telefone>>,
    createdAt: Option<string>,
    updatedAt: Option<string>)

  // ---------------------------------------------------------------------
  // CPF display (`formatCPF` of the list)
  // ---------------------------------------------------------------------

  /** Eleven consecutive digits start at index `k`. */
  predicate RunAt(s: string, k: int) {
    0 <= k && k + 11 <= |s| && AllDigits(s[k..k + 11])
  }

  /** The leftmost run of eleven digits starting at index `k` or later: where the regular expression matches. */
  function FirstRunFrom(s: string, k: nat): (r: Option<nat>)
    ensures r.None? ==> forall j :: k <= j ==> !RunAt(s, j)
    ensures r.Some? ==> k <= r.value && RunAt(s, r.value)
    ensures r.Some? ==> forall j :: k <= j < r.value ==> !RunAt(s, j)
    decreases |s| - k
  {
    if k + 11 > |s| then None
    else if AllDigits(s[k..k + 11]) then Some(k)
    else FirstRunFrom(s, k + 1)
  }

  /** Eleven digits shown as `XXX.XXX.XXX-XX`. */
  function Mask(d: string): string
    requires |d| == 11
  {
    d[..3] + (['.'] + d[3..6]) + (['.'] + d[6..9]) + (['-'] + d[9..])
  }

  /**
   * `cpf.replace(/(\d{3})(\d{3})(\d{3})(\d{2})/, '$1.$2.$3-$4')`: the
   * pattern has no `g` flag, so only the leftmost run of eleven digits is
   * masked; a text without such a run is shown as it is.
   */
  function DisplayCPF(cpf: string): (r: string)
    ensures (forall k :: !RunAt(cpf, k)) ==> r == cpf
    ensures (exists k :: RunAt(cpf, k)) ==> |r| == |cpf| + 3
  {
    match FirstRunFrom(cpf, 0)
    case None => cpf
    case Some(k) => cpf[..k] + Mask(cpf[k..k + 11]) + cpf[k + 11..]
  }

  /** The masked run is the leftmost one; the text around it is kept. */
  lemma DisplayCPFMasksLeftmostRun(cpf: string, k: nat)
    requires RunAt(cpf, k) && forall j :: 0 <= j < k ==> !RunAt(cpf, j)
    ensures DisplayCPF(cpf) == cpf[..k] + Mask(cpf[k..k + 11]) + cpf[k + 11..]
  {
    var f := FirstRunFrom(cpf, 0);
    assert f.Some? && f.value == k;
  }

  /** Masking a run of eleven digits inside a text keeps the text's digits. */
  lemma DigitsAroundMask(pre: string, run: string, post: string)
    requires |run| == 11 && AllDigits(run)
    ensures Digits(pre + Mask(run) + post) == Digits(pre + run + post)
  {
    ClientForm.DigitsOfFourGroups(run);
    assert Digits(Mask(run)) == Digits(run);
    DigitsAppend(pre, Mask(run));
    DigitsAppend(pre + Mask(run), post);
    DigitsAppend(pre, run);
    DigitsAppend(pre + run, post);
  }

  /** Masking changes no digit: the digits of the shown text are those of the stored one. */
  lemma DisplayCPFKeepsDigits(cpf: string)
    ensures Digits(DisplayCPF(cpf)) == Digits(cpf)
  {
    var f := FirstRunFrom(cpf, 0);
    if f.Some? {
      var k := f.value;
      DigitsAroundMask(cpf[..k], cpf[k..k + 11], cpf[k + 11..]);
      assert cpf[..k] + cpf[k..k + 11] + cpf[k + 11..] == cpf;
    }
  }

  /** On a CPF of exactly eleven digits the list shows what the form's input mask shows. */
  lemma DisplayCPFAgreesWithForm(cpf: string)
    requires |cpf| == 11 && AllDigits(cpf)
    ensures DisplayCPF(cpf) == ClientForm.FormatCPF(cpf) == Mask(cpf)
  {
    assert cpf[0..11] == cpf;
    DisplayCPFMasksLeftmostRun(cpf, 0);
    ClientForm.FormatCPFGroups(cpf);
  }

  /**
   * A CPF saved from a valid draft (sent as its digits) is listed exactly
   * as the form's input mask showed it while typing.
   */
  lemma SavedCpfDisplaysAsTyped(d: ClientForm.Cliente)
    requires ClientForm.FormIsValid(d)
    ensures DisplayCPF(ClientForm.DataToSend(d).cpf) == ClientForm.FormatCPF(d.cpf)
  {
    var digits := Digits(d.cpf);
    DisplayCPFAgreesWithForm(digits);
    ClientForm.FormatCPFGroups(d.cpf);
    ClientForm.FormatCPFGroups(digits);
  }

  // ---------------------------------------------------------------------
  // Phone display (`formatTelefones`)
  // ---------------------------------------------------------------------

  const NoPhonesText := "Nenhum telefone cadastrado"

  /** A dash before the last four characters of a number longer than four. */
  function NumeroFormatado(numero: string): (r: string)
    ensures |numero| > 4 ==> |r| == |numero| + 1 && r[|numero| - 4] == '-'
    ensures |numero| <= 4 ==> r == numero
  {
    if |numero| > 4 then numero[..|numero| - 4] + "-" + numero[|numero| - 4..] else numero
  }

  /** Removes the dash that `NumeroFormatado` inserts: the character before the last four, if it is a dash. */
  function RemoveDash(r: string): string {
    if |r| > 5 && r[|r| - 5] == '-' then r[..|r| - 5] + r[|r| - 4..] else r
  }

  /** Removing the dash gives back the stored number. */
  lemma NumeroRoundTrip(numero: string)
    ensures RemoveDash(NumeroFormatado(numero)) == numero
  {
    if |numero| > 4 {
      var m := |numero|;
      var r := NumeroFormatado(numero);
      assert r[..m - 4] == numero[..m - 4];
      assert r[m - 3..] == numero[m - 4..];
      assert numero[..m - 4] + numero[m - 4..] == numero;
    }
  }

  /** One phone: `(ddd) ` and the formatted number. */
  function PhoneText(t: TelefoneFromAPI): (r: string)
    ensures |r| == |t.ddd| + 3 + |NumeroFormatado(t.numero)|
    ensures r[0] == '('
    ensures r[1..|t.ddd| + 1] == t.ddd
    ensures r[|t.ddd| + 1..|t.ddd| + 3] == ") "
    ensures r[|t.ddd| + 3..] == NumeroFormatado(t.numero)
  {
    "(" + t.ddd + ") " + NumeroFormatado(t.numero)
  }

  /** The ddd and the number can be read back from a phone's text. */
  lemma PhoneTextRoundTrip(t: TelefoneFromAPI)
    ensures var r := PhoneText(t);
      r[1..|t.ddd| + 1] == t.ddd && RemoveDash(r[|t.ddd| + 3..]) == t.numero
  {
    NumeroRoundTrip(t.numero);
  }

  /** The phone list of a row: one text per phone, in order, joined by `, `. */
  function FormatTelefones(telefones: Option<seq<TelefoneFromAPI>>): (r: string)
    ensures telefones.None? || telefones.value == [] ==> r == NoPhonesText
  {
    if telefones.None? || |telefones.value| == 0 then NoPhonesText
    else
      var ts := telefones.value;
      Join(seq(|ts|, i requires 0 <= i < |ts| => PhoneText(ts[i])), ", ")
  }

  /** The placeholder is shown exactly when there is no phone. */
  lemma NoPhonesTextIffEmpty(telefones: Option<seq<TelefoneFromAPI>>)
    ensures FormatTelefones(telefones) == NoPhonesText <==> telefones.None? || telefones.value == []
  {
    if telefones.Some? && telefones.value != [] {
      var ts := telefones.value;
      var items := seq(|ts|, i requires 0 <= i < |ts| => PhoneText(ts[i]));
      JoinStartsWithFirst(items, ", ");
      assert FormatTelefones(telefones)[0] == '(';
    }
  }

  /** A single phone is shown alone. */
  lemma FormatOnePhone(t: TelefoneFromAPI)
    ensures FormatTelefones(Some([t])) == PhoneText(t)
  {
    var items := seq(1, i requires 0 <= i < 1 => PhoneText([t][i]));
    assert items == [PhoneText(t)];
  }

  /** One more phone appends `, ` and its text: the items follow the phones' order. */
  lemma FormatPhonesSnoc(ts: seq<TelefoneFromAPI>, t: TelefoneFromAPI)
    requires ts != []
    ensures FormatTelefones(Some(ts + [t])) == FormatTelefones(Some(ts)) + ", " + PhoneText(t)
  {
    var us := ts + [t];
    var items := seq(|ts|, i requires 0 <= i < |ts| => PhoneText(ts[i]));
    var items' := seq(|us|, i requires 0 <= i < |us| => PhoneText(us[i]));
    assert items' == items + [PhoneText(t)];
    JoinSnoc(items, PhoneText(t), ", ");
  }

  // ---------------------------------------------------------------------
  // Address summary (`formatEnderecoResumido`)
  // ---------------------------------------------------------------------

  const NoAddressText := "Endereço não cadastrado"

  /** `cidade/estado`, or the placeholder when the record has no address. */
  function FormatEnderecoResumido(endereco: Option<EnderecoFromAPI>): (r: string)
    ensures endereco.None? ==> r == NoAddressText
  {
    match endereco
    case None => NoAddressText
    case Some(e) => e.cidade + "/" + e.estado
  }

  /** The placeholder is shown exactly when there is no address. */
  lemma NoAddressTextIffAbsent(endereco: Option<EnderecoFromAPI>)
    ensures FormatEnderecoResumido(endereco) == NoAddressText <==> endereco.None?
  {
    if endereco.Some? {
      var e := endereco.value;
      var r := FormatEnderecoResumido(endereco);
      assert r[|e.cidade|] == '/';
      assert forall k :: 0 <= k < |NoAddressText| ==> NoAddressText[k] != '/';
    }
  }

  /** A city without `/` is read back before the first `/`, and the state after it. */
  lemma SummaryRoundTrip(e: EnderecoFromAPI)
    requires forall k :: 0 <= k < |e.cidade| ==> e.cidade[k] != '/'
    ensures var r := FormatEnderecoResumido(Some(e));
      var i := IndexOf(r, '/');
      i < |r| && r[..i] == e.cidade && r[i + 1..] == e.estado
  {
    var r := FormatEnderecoResumido(Some(e));
    var i := IndexOf(r, '/');
    assert r[|e.cidade|] == '/';
    assert i == |e.cidade|;
  }

  // ---------------------------------------------------------------------
  // Opening the edit form (`convertToFormData`)
  // ---------------------------------------------------------------------

  function ToFormTelefone(t: TelefoneFromAPI): ClientForm.Telefone {
    ClientForm.Telefone(Some(t.id), t.ddd, t.numero)
  }

  function ToFormEndereco(e: EnderecoFromAPI): (f: ClientForm.Endereco)
    ensures f.id == Some(e.id)
    ensures forall a :: ClientForm.FieldValue(f, a) == FieldValueFromAPI(e, a)
    ensures f.informacoesAdicionais == ClientForm.OrAbsent(e.informacoesAdicionais)
  {
    ClientForm.Endereco(
      Some(e.id), e.estado, e.cidade, e.bairro, e.rua, e.numero, e.codigoPostal,
      ClientForm.OrAbsent(e.informacoesAdicionais))
  }

  function FieldValueFromAPI(e: EnderecoFromAPI, a: ClientForm.AddressField): string {
    match a
    case Estado => e.estado
    case Cidade => e.cidade
    case Bairro => e.bairro
    case Rua => e.rua
    case Numero => e.numero
    case CodigoPostal => e.codigoPostal
  }

  /**
   * A record as the edit form receives it: the scalars copied, empty
   * optional texts dropped, an absent address left absent, the phones
   * mapped one to one, and one blank phone when the record has no phone list.
   */
  function ConvertToFormData(c: ClienteFromAPI): (f: ClienteForForm)
    ensures f.id == Some(c.id) && f.nome == c.nome && f.cpf == c.cpf
    ensures f.createdAt == Some(c.createdAt) && f.updatedAt == Some(c.updatedAt)
    ensures f.nomeSocial.Some? <==> ClientForm.Truthy(c.nomeSocial)
    ensures f.email.Some? <==> ClientForm.Truthy(c.email)
    ensures f.nomeSocial.Some? ==> f.nomeSocial == c.nomeSocial
    ensures f.email.Some? ==> f.email == c.email
    ensures f.endereco.Some? <==> c.endereco.Some?
    ensures c.endereco.Some? ==> f.endereco.value == ToFormEndereco(c.endereco.value)
    ensures f.telefones.Some?
    ensures c.telefones.None? ==> f.telefones.value == [ClientForm.EmptyTelefone]
    ensures c.telefones.Some? ==> |f.telefones.value| == |c.telefones.value|
    ensures c.telefones.Some? ==> forall i :: 0 <= i < |c.telefones.value| ==>
      f.telefones.value[i] == ToFormTelefone(c.telefones.value[i])
  {
    ClienteForForm(
      Some(c.id),
      c.nome,
      ClientForm.OrAbsent(c.nomeSocial),
      ClientForm.OrAbsent(c.email),
      c.cpf,
      match c.endereco
      case None => None
      case Some(e) => Some(ToFormEndereco(e)),
      match c.telefones
      case None => Some([ClientForm.EmptyTelefone])
      case Some(ts) => Some(seq(|ts|, i requires 0 <= i < |ts| => ToFormTelefone(ts[i]))),
      Some(c.createdAt),
      Some(c.updatedAt))
  }

  /**
   * What the edit form can work with: its draft needs an address (the
   * inputs read each address field) and a phone list (its length is read
   * when the form loads). Without either, the form fails when it opens.
   */
  function HandOff(f: ClienteForForm): (d: Option<ClientForm.Cliente>)
    ensures d.Some? <==> f.endereco.Some? && f.telefones.Some?
    ensures d.Some? ==> d.value.endereco == f.endereco.value && d.value.telefones == f.telefones.value
    ensures d.Some? ==> d.value.id == f.id && d.value.nome == f.nome && d.value.cpf == f.cpf
    ensures d.Some? ==> d.value.nomeSocial == f.nomeSocial && d.value.email == f.email
  {
    if f.endereco.Some? && f.telefones.Some? then
      Some(ClientForm.Cliente(
        f.id, f.nome, f.nomeSocial, f.email, f.cpf, f.endereco.value, f.telefones.value,
        f.createdAt, f.updatedAt))
    else None
  }

  /** As written, editing a record without an address gives the form a draft it cannot open. */
  lemma AbsentAddressBreaksForm(c: ClienteFromAPI)
    requires c.endereco.None?
    ensures HandOff(ConvertToFormData(c)).None?
  {
  }

  /** The conversion with the evidently intended default: the blank address when the record has none. */
  function ConvertToFormDataWithBlankAddress(c: ClienteFromAPI): (f: ClienteForForm)
    ensures f == ConvertToFormData(c).(endereco := f.endereco)
    ensures c.endereco.Some? ==> f.endereco == ConvertToFormData(c).endereco
    ensures c.endereco.None? ==> f.endereco == Some(ClientForm.InitialEndereco)
  {
    var f := ConvertToFormData(c);
    if c.endereco.None? then f.(endereco := Some(ClientForm.InitialEndereco)) else f
  }

  /**
   * The corrected conversion always opens the form; a record without an
   * address opens with every required address field reported blank.
   */
  lemma CorrectedConversionOpensForm(c: ClienteFromAPI)
    ensures HandOff(ConvertToFormDataWithBlankAddress(c)).Some?
    ensures c.endereco.None? ==>
      forall a :: IsBlank(ClientForm.FieldValue(HandOff(ConvertToFormDataWithBlankAddress(c)).value.endereco, a))
  {
    var d := HandOff(ConvertToFormDataWithBlankAddress(c));
    if c.endereco.None? {
      forall a ensures IsBlank(ClientForm.FieldValue(d.value.endereco, a)) {
        assert ClientForm.FieldValue(ClientForm.InitialEndereco, a) == "";
      }
    }
  }

  /**
   * Opening a record whose phones are all filled in and saving it unchanged
   * builds a payload that carries back its name, its CPF as digits, its
   * optional texts and every one of its phones, with their ids. The payload
   * is sent only when the draft validates: a record without an address
   * opens with the blank address and never validates, and a record without
   * phones (no list, or an empty one) opens with one blank row that fails
   * validation, so in both cases the save is blocked and nothing is sent.
   */
  lemma EditAndSaveKeepsRecord(c: ClienteFromAPI)
    requires forall i :: 0 <= i < |c.telefones.GetOr([])| ==>
      c.telefones.GetOr([])[i].ddd != "" && c.telefones.GetOr([])[i].numero != ""
    ensures HandOff(ConvertToFormDataWithBlankAddress(c)).Some?
    ensures c.endereco.None? ==>
      !ClientForm.FormIsValid(ClientForm.LoadedDraft(HandOff(ConvertToFormDataWithBlankAddress(c))))
    ensures c.telefones.GetOr([]) == [] ==>
      var draft := ClientForm.LoadedDraft(HandOff(ConvertToFormDataWithBlankAddress(c)));
      && draft.telefones == [ClientForm.EmptyTelefone]
      && !ClientForm.FormIsValid(draft)
    ensures c.telefones.GetOr([]) != [] ==>
      var p := ClientForm.DataToSend(ClientForm.LoadedDraft(HandOff(ConvertToFormDataWithBlankAddress(c))));
      && p.nome == c.nome
      && p.cpf == Digits(c.cpf)
      && p.nomeSocial == ClientForm.OrAbsent(c.nomeSocial)
      && p.email == ClientForm.OrAbsent(c.email)
      && |p.telefones| == |c.telefones.GetOr([])|
      && forall i :: 0 <= i < |p.telefones| ==> p.telefones[i] == ToFormTelefone(c.telefones.GetOr([])[i])
  {
    CorrectedConversionOpensForm(c);
    var f := ConvertToFormDataWithBlankAddress(c);
    var draft := ClientForm.LoadedDraft(HandOff(f));
    assert draft.nomeSocial == Some(ClientForm.OrEmpty(f.nomeSocial));
    if c.endereco.None? {
      assert IsBlank(ClientForm.FieldValue(draft.endereco, ClientForm.Estado));
    }
    if c.telefones.GetOr([]) == [] {
      assert draft.telefones == [ClientForm.EmptyTelefone];
      assert !ClientForm.PhoneComplete(draft.telefones[0]);
    } else {
      assert draft.telefones == f.telefones.value;
      forall i | 0 <= i < |draft.telefones| ensures ClientForm.PhoneFilled(draft.telefones[i]) {
        assert draft.telefones[i] == ToFormTelefone(c.telefones.value[i]);
      }
      ClientForm.KeepFilledAll(draft.telefones);
    }
  }
}
