/**
 * The client page: the form, the address string it composes on save, the
 * parse that fills the form again on edit, the postal-code (CEP) guard in
 * front of the address lookup, and the name search.
 */
module Clients {
  import opened Wrappers
  import opened Types
  import opened Text
  import opened Lists

  /** The client form: every field is the text typed into it. */
  datatype ClientForm = ClientForm(
    nome: string,
    email: string,
    telefone: string,
    cep: string,
    logradouro: string,
    numero: string,
    complemento: string,
    bairro: string,
    cidade: string,
    uf: string)

  /** `text || undefined`: a blank field is not stored. */
  function Blank(s: string): (r: Option<string>)
    ensures r.None? <==> s == ""
    ensures r.Some? ==> r.value == s
  {
    if s == "" then None else Some(s)
  }

  /**
   * The address written on save:
   * `logradouro, numero[, complemento], bairro, cidade - uf, CEP: cep`,
   * or the empty string when there is no street.
   */
  function ComposeAddress(f: ClientForm): (r: string)
    ensures r == "" <==> f.logradouro == ""
  {
    if f.logradouro == "" then ""
    else
      var tail := f.bairro + ", " + ((f.cidade + " - " + f.uf) + ", " + ("CEP: " + f.cep));
      f.logradouro + ", " + (f.numero + ", " + (if f.complemento != "" then f.complemento + ", " + tail else tail))
  }

  /**
   * `handleSubmit`: a client needs a name. Blank e-mail, telephone and
   * address are stored as undefined; an edit keeps the id (when it has
   * one) and the creation date.
   */
  function BuildClient(f: ClientForm, editing: Option<Cliente>, freshId: string, now: int): (r: Result<Cliente, Error>)
    ensures r.Err? <==> f.nome == ""
    ensures r.Ok? ==>
      r.value.nome == f.nome &&
      r.value.email == Blank(f.email) &&
      r.value.telefone == Blank(f.telefone) &&
      (r.value.endereco.None? <==> f.logradouro == "")
    ensures r.Ok? ==> r.value.endereco == Blank(ComposeAddress(f))
    ensures r.Ok? && editing.Some? ==> r.value.createdAt == editing.value.createdAt
    ensures r.Ok? && editing.Some? && editing.value.id != "" ==> r.value.id == editing.value.id
    ensures r.Ok? && (editing.None? || editing.value.id == "") ==> r.value.id == freshId
    ensures r.Ok? && editing.None? ==> r.value.createdAt == now
  {
    if f.nome == "" then Err(Validation("Nome é obrigatório"))
    else
      var id := if editing.Some? && editing.value.id != "" then editing.value.id else freshId;
      var createdAt := if editing.Some? then editing.value.createdAt else now;
      Ok(Cliente(id, f.nome, Blank(f.email), Blank(f.telefone), Blank(ComposeAddress(f)), createdAt))
  }

  // ---- CEP extraction: the regular expression `CEP:\s*(\d{5}-?\d{3})` ----

  predicate IsDigit(c: char) {
    '0' <= c <= '9'
  }

  predicate AllDigits(s: string) {
    forall i :: 0 <= i < |s| ==> IsDigit(s[i])
  }

  /** The characters JavaScript's `\s` matches. */
  predicate IsSpace(c: char) {
    c == ' ' || c == '\t' || c == '\n' || c == '\r' || c == '\U{B}' || c == '\U{C}' ||
    c == '\U{A0}' || c == '\U{1680}' || ('\U{2000}' <= c <= '\U{200A}') ||
    c == '\U{2028}' || c == '\U{2029}' || c == '\U{202F}' || c == '\U{205F}' ||
    c == '\U{3000}' || c == '\U{FEFF}'
  }

  lemma AllDigitsConcat(a: string, b: string)
    requires AllDigits(a) && AllDigits(b)
    ensures AllDigits(a + b)
  {
  }

  /** What `\d{5}-?\d{3}` captures: eight digits, or five digits, a hyphen and three digits. */
  predicate CepShaped(c: string) {
    (|c| == 8 && AllDigits(c)) ||
    (|c| == 9 && AllDigits(c[..5]) && c[5] == '-' && AllDigits(c[6..]))
  }

  /** The first index at or after `j` that is not white space. */
  function SkipSpace(s: string, j: nat): (r: nat)
    requires j <= |s|
    decreases |s| - j
    ensures j <= r <= |s|
    ensures forall k :: j <= k < r ==> IsSpace(s[k])
    ensures r < |s| ==> !IsSpace(s[r])
  {
    if j < |s| && IsSpace(s[j]) then SkipSpace(s, j + 1) else j
  }

  /** The capture of a match of the expression starting at index `i`, if one starts there. */
  function CepMatchAt(s: string, i: nat): (r: Option<string>)
    requires i <= |s|
    ensures r.Some? ==> CepShaped(r.value)
  {
    if !OccursAt(s, i, "CEP:") then None
    else
      var j := SkipSpace(s, i + 4);
      if j + 5 <= |s| && AllDigits(s[j..j + 5]) then
        var p := j + 5;
        if p + 4 <= |s| && s[p] == '-' && AllDigits(s[p + 1..p + 4]) then
          assert s[j..p + 4][..5] == s[j..j + 5] && s[j..p + 4][6..] == s[p + 1..p + 4];
          Some(s[j..p + 4])
        else if p + 3 <= |s| && AllDigits(s[p..p + 3]) then
          assert s[j..p + 3] == s[j..j + 5] + s[p..p + 3];
          AllDigitsConcat(s[j..j + 5], s[p..p + 3]);
          Some(s[j..p + 3])
        else None
      else None
  }

  /** The capture of the leftmost match at or after index `i`. */
  function CepFrom(s: string, i: nat): (r: Option<string>)
    requires i <= |s|
    decreases |s| - i
    ensures r.Some? ==> CepShaped(r.value)
    ensures r.None? <==> forall k :: i <= k <= |s| ==> CepMatchAt(s, k).None?
  {
    if CepMatchAt(s, i).Some? then CepMatchAt(s, i)
    else if i == |s| then None
    else CepFrom(s, i + 1)
  }

  /** `endereco.match(/CEP:\s*(\d{5}-?\d{3})/)?.[1] || ''`. */
  function ExtractCep(endereco: Option<string>): (r: string)
    ensures r == "" || CepShaped(r)
  {
    if endereco.None? then ""
    else
      match CepFrom(endereco.value, 0)
      case None => ""
      case Some(c) => c
  }

  /**
   * An address that ends in `CEP: ` and a well-formed code gives that code
   * back, when no earlier `CEP:` starts a match.
   */
  lemma ExtractCepSuffix(prefix: string, cep: string)
    requires CepShaped(cep)
    requires forall k :: 0 <= k < |prefix| ==> CepMatchAt(prefix + "CEP: " + cep, k).None?
    ensures ExtractCep(Some(prefix + "CEP: " + cep)) == cep
  {
    var s := prefix + "CEP: " + cep;
    var i := |prefix|;
    assert s[i..i + 4] == "CEP:";
    assert s[i + 4] == ' ';
    assert SkipSpace(s, i + 4) == i + 5 by {
      assert !IsSpace(s[i + 5]) by { assert s[i + 5] == cep[0]; }
    }
    assert s[i + 5..] == cep;
    if |cep| == 8 {
      assert s[i + 5..i + 10] == cep[..5];
      assert s[i + 10..i + 13] == cep[5..];
      assert s[i + 5..i + 13] == cep;
    } else {
      assert s[i + 5..i + 10] == cep[..5];
      assert s[i + 11..i + 14] == cep[6..];
      assert s[i + 5..i + 14] == cep;
    }
    assert CepMatchAt(s, i) == Some(cep);
    CepFromSkips(s, 0, i);
  }

  /** The leftmost search passes over indices where no match starts. */
  lemma {:induction false} CepFromSkips(s: string, i: nat, m: nat)
    requires i <= m <= |s|
    requires forall k :: i <= k < m ==> CepMatchAt(s, k).None?
    decreases m - i
    ensures CepFrom(s, i) == CepFrom(s, m)
  {
    if i < m {
      CepFromStep(s, i);
      CepFromSkips(s, i + 1, m);
    }
  }

  /** The search moves on from an index where no match starts. */
  lemma CepFromStep(s: string, i: nat)
    requires i < |s| && CepMatchAt(s, i).None?
    ensures CepFrom(s, i) == CepFrom(s, i + 1)
  {
  }

  // ---- Address parsing in `handleEdit` ----

  /** The address fields `handleEdit` puts back into the form. */
  datatype AddressFields = AddressFields(
    cep: string,
    logradouro: string,
    numero: string,
    complemento: string,
    bairro: string,
    cidade: string,
    uf: string)

  /** `parts[k] || ''`. */
  function PartOr(parts: seq<string>, k: nat): string {
    if k < |parts| then parts[k] else ""
  }

  /**
   * `handleEdit`: split the address on `", "` and take the pieces by
   * position; the fifth is split again on `" - "` into city and state.
   */
  function ParseAddress(endereco: Option<string>): (r: AddressFields)
    ensures endereco.None? ==> r == AddressFields("", "", "", "", "", "", "")
    ensures r.cep == "" || CepShaped(r.cep)
  {
    var parts := if endereco.None? then [] else Split(endereco.value, ", ");
    var cidadeUf := if 4 < |parts| then Split(parts[4], " - ") else [];
    AddressFields(
      ExtractCep(endereco),
      PartOr(parts, 0), PartOr(parts, 1), PartOr(parts, 2), PartOr(parts, 3),
      PartOr(cidadeUf, 0), PartOr(cidadeUf, 1))
  }

  /** `handleEdit`: the form filled from a stored client. */
  function EditForm(c: Cliente): (r: ClientForm)
    ensures r.nome == c.nome
    ensures c.email.None? ==> r.email == ""
    ensures c.email.Some? ==> r.email == c.email.value
    ensures c.telefone.None? ==> r.telefone == ""
    ensures c.telefone.Some? ==> r.telefone == c.telefone.value
    ensures c.endereco.None? ==> r.logradouro == "" && r.cep == ""
    ensures var a := ParseAddress(c.endereco);
      r.cep == a.cep && r.logradouro == a.logradouro && r.numero == a.numero &&
      r.complemento == a.complemento && r.bairro == a.bairro && r.cidade == a.cidade && r.uf == a.uf
  {
    var a := ParseAddress(c.endereco);
    ClientForm(c.nome, c.email.GetOr(""), c.telefone.GetOr(""),
      a.cep, a.logradouro, a.numero, a.complemento, a.bairro, a.cidade, a.uf)
  }

  /**
   * The fields sit between separators without forming one themselves:
   * each of the first four, and `cidade - uf`, ends where `", "` starts;
   * the city ends where `" - "` starts; and the state holds no `" - "`.
   */
  predicate Separable(f: ClientForm) {
    SplitsAfter(f.logradouro, ", ") && SplitsAfter(f.numero, ", ") &&
    SplitsAfter(f.complemento, ", ") && SplitsAfter(f.bairro, ", ") &&
    SplitsAfter(f.cidade + " - " + f.uf, ", ") &&
    SplitsAfter(f.cidade, " - ") &&
    forall k :: 0 <= k <= |f.uf| ==> !OccursAt(f.uf, k, " - ")
  }

  /** The fifth piece, `cidade - uf`, splits back into city and state. */
  lemma CityStateSplit(f: ClientForm)
    requires Separable(f)
    ensures Split(f.cidade + " - " + f.uf, " - ") == [f.cidade, f.uf]
  {
    SplitFront(f.cidade, " - ", f.uf);
    SplitWhole(f.uf, " - ");
  }

  /** The parse reads the fields by position from the pieces of the address. */
  lemma ParseByPosition(e: string, ps: seq<string>)
    requires |ps| >= 5
    requires |Split(e, ", ")| >= 5 && Split(e, ", ")[..5] == ps[..5]
    ensures var a := ParseAddress(Some(e));
      a.logradouro == ps[0] && a.numero == ps[1] && a.complemento == ps[2] &&
      a.bairro == ps[3] && a.cidade == PartOr(Split(ps[4], " - "), 0) &&
      a.uf == PartOr(Split(ps[4], " - "), 1)
  {
    var parts := Split(e, ", ");
    assert forall k :: 0 <= k < 5 ==> parts[k] == parts[..5][k];
  }

  /** The pieces the save joins with `", "`. */
  function AddressPieces(f: ClientForm): seq<string> {
    [f.logradouro] + ([f.numero] + ((if f.complemento != "" then [f.complemento] else []) + AddressTail(f)))
  }

  /** A non-empty street makes the address the join of its pieces. */
  lemma ComposedJoin(f: ClientForm)
    requires f.logradouro != ""
    ensures ComposeAddress(f) == Join(AddressPieces(f), ", ")
  {
    var sep := ", ";
    var cu := f.cidade + " - " + f.uf;
    assert [cu, "CEP: " + f.cep] == [cu] + ["CEP: " + f.cep];
    JoinFront(cu, ["CEP: " + f.cep], sep);
    JoinFront(f.bairro, [cu, "CEP: " + f.cep], sep);
    var t1 := (if f.complemento != "" then [f.complemento] else []) + AddressTail(f);
    if f.complemento != "" {
      JoinFront(f.complemento, AddressTail(f), sep);
    } else {
      assert t1 == AddressTail(f);
    }
    JoinFront(f.numero, t1, sep);
    JoinFront(f.logradouro, [f.numero] + t1, sep);
  }

  /** The last three pieces: district, "city - state" and the postal code. */
  function AddressTail(f: ClientForm): seq<string> {
    [f.bairro] + [f.cidade + " - " + f.uf, "CEP: " + f.cep]
  }

  /** Every piece but the postal code ends where `", "` begins. */
  lemma SeparablePieces(f: ClientForm)
    requires Separable(f)
    ensures PiecesSplitAfter(AddressPieces(f), ", ")
  {
    var sep := ", ";
    var cu := f.cidade + " - " + f.uf;
    var t3 := [cu, "CEP: " + f.cep];
    assert PiecesSplitAfter(t3, sep) by {
      assert t3[1..] == ["CEP: " + f.cep];
    }
    var t2 := [f.bairro] + t3;
    assert PiecesSplitAfter(t2, sep) by { assert t2[1..] == t3; }
    var t1 := (if f.complemento != "" then [f.complemento] else []) + t2;
    assert PiecesSplitAfter(t1, sep) by {
      if f.complemento != "" { assert t1[1..] == t2; } else { assert t1 == t2; }
    }
    var t0 := [f.numero] + t1;
    assert PiecesSplitAfter(t0, sep) by { assert t0[1..] == t1; }
    var ps := [f.logradouro] + t0;
    assert ps[1..] == t0;
  }

  /** The pieces before the postal code come back from the split. */
  lemma PiecesSplit(f: ClientForm)
    requires f.logradouro != ""
    requires Separable(f)
    ensures var ps := AddressPieces(f);
      |Split(ComposeAddress(f), ", ")| >= |ps| &&
      Split(ComposeAddress(f), ", ")[..|ps| - 1] == ps[..|ps| - 1]
  {
    var ps := AddressPieces(f);
    ComposedJoin(f);
    SeparablePieces(f);
    SplitJoin(ps, ", ");
  }

  /**
   * With a complement, the parse recovers every address field the save
   * composed.
   */
  lemma AddressRoundTrip(f: ClientForm)
    requires f.logradouro != "" && f.complemento != ""
    requires Separable(f)
    ensures var a := ParseAddress(Some(ComposeAddress(f)));
      a.logradouro == f.logradouro && a.numero == f.numero && a.complemento == f.complemento &&
      a.bairro == f.bairro && a.cidade == f.cidade && a.uf == f.uf
  {
    var ps := AddressPieces(f);
    PiecesSplit(f);
    assert |ps| == 6;
    assert Split(ComposeAddress(f), ", ")[..5] == ps[..5];
    ParseByPosition(ComposeAddress(f), ps);
    CityStateSplit(f);
  }

  /**
   * Without a complement the pieces shift by one: the neighbourhood lands
   * in the complement and `cidade - uf` in the neighbourhood.
   */
  lemma AddressMisaligned(f: ClientForm)
    requires f.logradouro != "" && f.complemento == ""
    requires Separable(f)
    ensures var a := ParseAddress(Some(ComposeAddress(f)));
      a.logradouro == f.logradouro && a.numero == f.numero &&
      a.complemento == f.bairro && a.bairro == f.cidade + " - " + f.uf
  {
    var ps := AddressPieces(f);
    PiecesSplit(f);
    assert |ps| == 5;
    assert Split(ComposeAddress(f), ", ")[..5] == ps[..4] + Split(ComposeAddress(f), ", ")[4..5];
    ParseByPosition(ComposeAddress(f), ps[..4] + Split(ComposeAddress(f), ", ")[4..5]);
  }

  /** Everything the save writes before `CEP: ` and the code. */
  function AddressHead(f: ClientForm): string {
    f.logradouro + ", " + (f.numero + ", " +
      ((if f.complemento != "" then f.complemento + ", " else "") + (f.bairro + ", " + ((f.cidade + " - " + f.uf) + ", "))))
  }

  /** A non-empty street makes the address end in `CEP: ` and the code. */
  lemma ComposedHead(f: ClientForm)
    requires f.logradouro != ""
    ensures ComposeAddress(f) == AddressHead(f) + "CEP: " + f.cep
  {
  }

  /**
   * Saving a well-formed form and opening the client for edit fills the
   * form back exactly, when the address has a complement, its fields hold
   * no separators, and no `CEP:` match starts before the code.
   */
  lemma SaveThenEdit(f: ClientForm, editing: Option<Cliente>, freshId: string, now: int)
    requires f.nome != "" && f.logradouro != "" && f.complemento != ""
    requires Separable(f) && CepShaped(f.cep)
    requires forall k :: 0 <= k < |AddressHead(f)| ==> CepMatchAt(ComposeAddress(f), k).None?
    ensures BuildClient(f, editing, freshId, now).Ok?
    ensures EditForm(BuildClient(f, editing, freshId, now).value) == f
  {
    ComposedHead(f);
    ExtractCepSuffix(AddressHead(f), f.cep);
    AddressRoundTrip(f);
  }

  // ---- The CEP guard in `fetchAddressByCep` ----

  /** `cep.replace(/\D/, '')`: removes the first non-digit only. */
  function RemoveFirstNonDigit(cep: string): (r: string)
    ensures AllDigits(cep) ==> r == cep
    ensures !AllDigits(cep) ==> |r| == |cep| - 1
  {
    if cep == [] then []
    else if !IsDigit(cep[0]) then cep[1..]
    else [cep[0]] + RemoveFirstNonDigit(cep[1..])
  }

  /**
   * The guard as written: the lookup runs with the code left after
   * removing the first non-digit, when exactly eight characters remain.
   */
  function CepLookupKey(cep: string): (r: Option<string>)
    ensures r.Some? <==>
      (AllDigits(cep) && |cep| == 8) || (!AllDigits(cep) && |cep| == 9)
  {
    var key := RemoveFirstNonDigit(cep);
    if |key| == 8 then Some(key) else None
  }

  /** Both stored shapes of a code pass the guard and give the eight digits. */
  lemma ShapedCepPasses(cep: string)
    requires CepShaped(cep)
    ensures CepLookupKey(cep).Some? && AllDigits(CepLookupKey(cep).value)
  {
    if |cep| == 9 {
      assert forall i :: 0 <= i < 5 ==> cep[i] == cep[..5][i];
      RemoveFirstNonDigitAt(cep, 5);
      AllDigitsConcat(cep[..5], cep[6..]);
    }
  }

  /** Removing the first non-digit, when it sits at a known index, cuts exactly that character. */
  lemma {:induction false} RemoveFirstNonDigitAt(cep: string, k: nat)
    requires k < |cep| && !IsDigit(cep[k])
    requires forall i :: 0 <= i < k ==> IsDigit(cep[i])
    ensures RemoveFirstNonDigit(cep) == cep[..k] + cep[k + 1..]
  {
    if k == 0 {
      assert cep[..0] + cep[1..] == cep[1..];
    } else {
      var t := cep[1..];
      RemoveFirstNonDigitAt(t, k - 1);
      assert t[..k - 1] == cep[1..k] && t[k..] == cep[k + 1..];
      assert [cep[0]] + cep[1..k] == cep[..k];
    }
  }

  /** `cep.replace(/\D/g, '')`: all non-digits removed. */
  function DigitsOnly(cep: string): (r: string)
    ensures AllDigits(r)
    ensures |r| <= |cep|
    ensures AllDigits(cep) ==> r == cep
  {
    if cep == [] then []
    else if !IsDigit(cep[0]) then DigitsOnly(cep[1..])
    else [cep[0]] + DigitsOnly(cep[1..])
  }

  /** Removing all non-digits works piece by piece. */
  lemma {:induction false} DigitsOnlyAppend(a: string, b: string)
    ensures DigitsOnly(a + b) == DigitsOnly(a) + DigitsOnly(b)
  {
    if a != [] {
      assert (a + b)[1..] == a[1..] + b;
      DigitsOnlyAppend(a[1..], b);
    } else {
      assert a + b == b;
    }
  }

  /** The guard as evidently intended: look up when the code holds exactly eight digits. */
  function CepLookupKeyAllDigits(cep: string): (r: Option<string>)
    ensures r.Some? ==> |r.value| == 8 && AllDigits(r.value)
    ensures AllDigits(cep) ==> (r.Some? <==> |cep| == 8)
  {
    var key := DigitsOnly(cep);
    if |key| == 8 then Some(key) else None
  }

  /** The two guards agree on both stored shapes of a code. */
  lemma GuardsAgreeOnShapedCep(cep: string)
    requires CepShaped(cep)
    ensures CepLookupKeyAllDigits(cep) == CepLookupKey(cep)
  {
    ShapedCepPasses(cep);
    if |cep| == 9 {
      assert forall i :: 0 <= i < 5 ==> cep[i] == cep[..5][i];
      RemoveFirstNonDigitAt(cep, 5);
      assert cep == cep[..5] + ([cep[5]] + cep[6..]);
      DigitsOnlyAppend(cep[..5], [cep[5]] + cep[6..]);
      DigitsOnlyAppend([cep[5]], cep[6..]);
      assert DigitsOnly([cep[5]]) == [];
    }
  }

  /**
   * A code typed as `dd.ddd-ddd` (for example "12.345-678") holds eight
   * digits, yet the guard as written refuses it; the intended guard looks
   * it up with those eight digits.
   */
  lemma DottedCepRefused(a: string, b: string, c: string)
    requires |a| == 2 && |b| == 3 && |c| == 3
    requires AllDigits(a) && AllDigits(b) && AllDigits(c)
    ensures CepLookupKey(a + "." + b + "-" + c) == None
    ensures CepLookupKeyAllDigits(a + "." + b + "-" + c) == Some(a + b + c)
  {
    var cep := a + "." + b + "-" + c;
    assert |cep| == 10 && cep[2] == '.';
    DottedDigits(a, b, c);
  }

  /** Removing every non-digit from `dd.ddd-ddd` leaves its eight digits. */
  lemma DottedDigits(a: string, b: string, c: string)
    requires AllDigits(a) && AllDigits(b) && AllDigits(c)
    ensures DigitsOnly(a + "." + b + "-" + c) == a + b + c
  {
    var t3 := "-" + c;
    DigitsOnlyAppend("-", c);
    assert DigitsOnly(t3) == c;
    var t2 := b + t3;
    DigitsOnlyAppend(b, t3);
    assert DigitsOnly(t2) == b + c;
    var t1 := "." + t2;
    DigitsOnlyAppend(".", t2);
    assert DigitsOnly(t1) == b + c;
    DigitsOnlyAppend(a, t1);
    assert DigitsOnly(a + t1) == a + (b + c);
    SplicedDotted(a, b, c);
  }

  lemma SplicedDotted(a: string, b: string, c: string)
    ensures a + "." + b + "-" + c == a + ("." + (b + ("-" + c)))
    ensures a + (b + c) == a + b + c
  {
  }

  /** `filteredClientes`: the clients whose name contains the search term, ignoring case. */
  function FilterClientes(cs: seq<Cliente>, term: string): (r: seq<Cliente>)
    ensures forall j :: 0 <= j < |r| ==> r[j] in cs && MatchesTerm(r[j].nome, term)
    ensures forall j :: 0 <= j < |cs| && MatchesTerm(cs[j].nome, term) ==> cs[j] in r
  {
    Filter(cs, (c: Cliente) => MatchesTerm(c.nome, term))
  }

  /** An empty search lists every client, in store order. */
  lemma EmptySearchListsAllClientes(cs: seq<Cliente>)
    ensures FilterClientes(cs, "") == cs
  {
    forall j | 0 <= j < |cs| ensures MatchesTerm(cs[j].nome, "") {
      EmptyTermMatches(cs[j].nome);
    }
    FilterKeepsAll(cs, (c: Cliente) => MatchesTerm(c.nome, ""));
  }
}
