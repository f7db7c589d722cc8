/** The registration form: the CPF input mask, the (partial) CPF check
    and the guards that run before the registration request. */
module RegisterScreen {
  import opened Base
  import opened Text

  /** The number of digits the mask keeps: a CPF has eleven. */
  function Kept(n: nat): (k: nat)
    ensures k <= 11 && k <= n && (n <= 11 ==> k == n)
    ensures n >= 11 ==> k == 11
  {
    if n <= 11 then n else 11
  }

  /** The separators the mask inserts for `n` kept digits. */
  function Separators(n: nat): nat {
    if n <= 3 then 0 else if n <= 6 then 1 else if n <= 9 then 2 else 3
  }

  /** The separator of the complete mask `000.000.000-00` at position `i`,
      or None where the mask holds a digit. */
  function MaskSeparator(i: nat): Option<char> {
    if i == 3 || i == 7 then Some('.') else if i == 11 then Some('-') else None
  }

  /** The mask of `handleCpfChange`: keep the first eleven digits of the
      input and put `.` after the 3rd and 6th digit and `-` after the 9th,
      as far as the digits reach. */
  function FormatCpf(input: string): (r: string)
    ensures var n := Kept(|Digits(input)|);
            && |r| == n + Separators(n) && |r| <= 14
            && forall i :: 0 <= i < |r| ==>
                 if MaskSeparator(i).Some? then r[i] == MaskSeparator(i).value else IsDigit(r[i])
  {
    Mask(Digits(input))
  }

  /** The slices and separators of the mask, on the digits alone. */
  function Mask(d: string): (r: string)
    requires AllDigits(d)
    ensures var n := Kept(|d|);
            && |r| == n + Separators(n)
            && forall i :: 0 <= i < |r| ==>
                 if MaskSeparator(i).Some? then r[i] == MaskSeparator(i).value else IsDigit(r[i])
  {
    if |d| <= 3 then d
    else if |d| <= 6 then d[..3] + "." + d[3..]
    else if |d| <= 9 then d[..3] + "." + d[3..6] + "." + d[6..]
    else d[..3] + "." + d[3..6] + "." + d[6..9] + "-" + d[9..Kept(|d|)]
  }

  /** The digits of the mask are the first eleven digits of the input;
      every other character of the input is dropped. */
  lemma FormatCpfDigits(input: string)
    ensures Digits(FormatCpf(input)) == Digits(input)[..Kept(|Digits(input)|)]
  {
    MaskDigits(Digits(input));
  }

  lemma MaskDigits(d: string)
    requires AllDigits(d)
    ensures Digits(Mask(d)) == d[..Kept(|d|)]
  {
    var n := Kept(|d|);
    if |d| <= 3 {
      DigitsOfDigitString(d);
      assert d[..n] == d;
    } else if |d| <= 6 {
      DigitsOfDigitString(d[..3]);
      DigitsAfterSeparator(d[..3], '.', d[3..]);
      assert d[..3] + d[3..] == d == d[..n];
    } else if |d| <= 9 {
      MaskDigitsUpTo9(d);
    } else {
      MaskDigitsFull(d);
    }
  }

  lemma MaskDigitsUpTo9(d: string)
    requires AllDigits(d) && 6 < |d| <= 9
    ensures Digits(d[..3] + "." + d[3..6] + "." + d[6..]) == d
  {
    DigitsOfDigitString(d[..3]);
    DigitsAfterSeparator(d[..3], '.', d[3..6]);
    DigitsAfterSeparator(d[..3] + "." + d[3..6], '.', d[6..]);
    assert d[..3] + d[3..6] + d[6..] == d;
  }

  lemma MaskDigitsFull(d: string)
    requires AllDigits(d) && 9 < |d|
    ensures Digits(d[..3] + "." + d[3..6] + "." + d[6..9] + "-" + d[9..Kept(|d|)]) == d[..Kept(|d|)]
  {
    var n := Kept(|d|);
    DigitsOfDigitString(d[..3]);
    DigitsAfterSeparator(d[..3], '.', d[3..6]);
    DigitsAfterSeparator(d[..3] + "." + d[3..6], '.', d[6..9]);
    DigitsAfterSeparator(d[..3] + "." + d[3..6] + "." + d[6..9], '-', d[9..n]);
    assert d[..3] + d[3..6] + d[6..9] + d[9..n] == d[..n];
  }

  lemma DigitsAfterSeparator(x: string, sep: char, b: string)
    requires !IsDigit(sep) && AllDigits(b)
    ensures Digits(x + [sep] + b) == Digits(x) + b
  {
    DigitsConcat(x + [sep], b);
    DigitsConcat(x, [sep]);
    DigitsOfDigitString(b);
  }

  /** The mask sees only the digits of its input. */
  lemma FormatCpfOnlyDigitsMatter(s: string, t: string)
    requires Digits(s) == Digits(t)
    ensures FormatCpf(s) == FormatCpf(t)
  {
  }

  lemma FormatCpfOfDigits(s: string)
    ensures FormatCpf(Digits(s)) == FormatCpf(s)
  {
    DigitsIdempotent(s);
  }

  /** Masking a masked CPF changes nothing, so retyping into the field
      keeps its text. */
  lemma FormatCpfIdempotent(s: string)
    ensures FormatCpf(FormatCpf(s)) == FormatCpf(s)
  {
    var d := Digits(s);
    MaskDigits(d);
    MaskOfKeptDigits(d);
  }

  /** The mask ignores the digits after the eleventh. */
  lemma MaskOfKeptDigits(d: string)
    requires AllDigits(d)
    ensures Mask(d[..Kept(|d|)]) == Mask(d)
  {
    if |d| > 11 {
      var e := d[..11];
      assert e[..3] == d[..3] && e[3..6] == d[3..6] && e[6..9] == d[6..9] && e[9..11] == d[9..11];
    } else {
      assert d[..Kept(|d|)] == d;
    }
  }

  /** `validateCpf`: exactly eleven digits once the mask is stripped, not
      all of them the same digit. The check digits are not verified. */
  function ValidateCpf(cpf: string): (ok: bool)
    ensures ok <==> |Digits(cpf)| == 11 && exists i :: 0 < i < 11 && Digits(cpf)[i] != Digits(cpf)[0]
  {
    var d := Digits(cpf);
    |d| == 11 && !AllSame(d)
  }

  /** `/^(\d)\1{10}$/` on a string of eleven digits: no two characters
      differ. */
  function AllSame(d: string): (r: bool)
    ensures r <==> forall i, j :: 0 <= i < |d| && 0 <= j < |d| ==> d[i] == d[j]
  {
    forall i :: 0 <= i < |d| ==> d[i] == d[0]
  }

  /** A CPF that passes the check shows the complete mask. */
  lemma ValidCpfFillsMask(cpf: string)
    requires ValidateCpf(cpf)
    ensures |FormatCpf(cpf)| == 14
    ensures FormatCpf(cpf)[3] == '.' && FormatCpf(cpf)[7] == '.' && FormatCpf(cpf)[11] == '-'
  {
  }

  /** The check gives the same answer on the masked text as on the raw
      text it came from, as long as that held at most eleven digits. */
  lemma ValidateCpfIgnoresMask(s: string)
    requires |Digits(s)| <= 11
    ensures ValidateCpf(FormatCpf(s)) == ValidateCpf(s)
  {
    FormatCpfDigits(s);
    assert Digits(s)[..|Digits(s)|] == Digits(s);
  }

  datatype RegisterError = EmptyField | InvalidCpf | ShortPassword | PasswordMismatch

  /** The JSON body of the registration request. */
  datatype RegisterBody = RegisterBody(cpf: string, password: string)

  datatype RegisterOutcome = Refused(error: RegisterError) | Submit(body: RegisterBody)

  /** `handleRegister`: the first failing check decides the message and
      nothing is sent; otherwise the CPF is sent without its mask. */
  function HandleRegister(cpf: string, password: string, confirmPassword: string): (r: RegisterOutcome)
    ensures r == Refused(EmptyField) <==> cpf == "" || password == "" || confirmPassword == ""
    ensures r == Refused(InvalidCpf) <==>
              cpf != "" && password != "" && confirmPassword != "" && !ValidateCpf(cpf)
    ensures r == Refused(ShortPassword) <==>
              cpf != "" && confirmPassword != "" && ValidateCpf(cpf) && 0 < |password| < 6
    ensures r == Refused(PasswordMismatch) <==>
              confirmPassword != "" && ValidateCpf(cpf) && |password| >= 6 && password != confirmPassword
    ensures r.Submit? <==> ValidateCpf(cpf) && |password| >= 6 && password == confirmPassword
    ensures r.Submit? ==> r.body == RegisterBody(Digits(cpf), password)
                          && |r.body.cpf| == 11 && AllDigits(r.body.cpf) && !AllSame(r.body.cpf)
  {
    if cpf == "" || password == "" || confirmPassword == "" then Refused(EmptyField)
    else if !ValidateCpf(cpf) then Refused(InvalidCpf)
    else if |password| < 6 then Refused(ShortPassword)
    else if password != confirmPassword then Refused(PasswordMismatch)
    else Submit(RegisterBody(Digits(cpf), password))
  }
}
