/** The login form: its own copy of the CPF mask and the guard that runs
    before the login request. */
module LoginScreen {
  import opened Text
  import RegisterScreen

  /** The login screen's `formatCpf`, written out again with the same
      slices; it is the registration screen's mask, input for input. */
  function FormatCpf(input: string): (r: string)
    ensures r == RegisterScreen.FormatCpf(input)
  {
    var d := Digits(input);
    if |d| <= 3 then d
    else if |d| <= 6 then d[..3] + "." + d[3..]
    else if |d| <= 9 then d[..3] + "." + d[3..6] + "." + d[6..]
    else d[..3] + "." + d[3..6] + "." + d[6..9] + "-" + d[9..if |d| < 11 then |d| else 11]
  }

  /** The mask keeps the first eleven digits of its input, fits the
      field's `maxLength={14}` and changes nothing when applied again. */
  lemma FormatCpfProperties(input: string)
    ensures Digits(FormatCpf(input)) == Digits(input)[..RegisterScreen.Kept(|Digits(input)|)]
    ensures |FormatCpf(input)| <= 14
    ensures FormatCpf(FormatCpf(input)) == FormatCpf(input)
  {
    RegisterScreen.FormatCpfDigits(input);
    RegisterScreen.FormatCpfIdempotent(input);
  }

  /** The JSON body of the login request. */
  datatype LoginBody = LoginBody(cpf: string, password: string)

  datatype LoginOutcome = MissingField | SubmitLogin(body: LoginBody)

  /** `handleLogin`: nothing is sent while either field is empty; otherwise
      the CPF goes out exactly as the field holds it. */
  function HandleLogin(cpf: string, password: string): (r: LoginOutcome)
    ensures r.MissingField? <==> cpf == "" || password == ""
    ensures r.SubmitLogin? ==> r.body.cpf == cpf && r.body.password == password
  {
    if cpf == "" || password == "" then MissingField
    else SubmitLogin(LoginBody(cpf, password))
  }

  /** Unlike registration, which sends the eleven digits alone, the login
      request carries the mask: as soon as four digits are typed the sent
      CPF holds a '.', so it is not a string of digits. */
  lemma LoginSendsMaskedCpf(typed: string, password: string)
    requires |Digits(typed)| >= 4 && password != ""
    ensures var r := HandleLogin(FormatCpf(typed), password);
            && r.SubmitLogin? && r.body.cpf == FormatCpf(typed)
            && r.body.cpf[3] == '.' && !AllDigits(r.body.cpf)
  {
  }
}
