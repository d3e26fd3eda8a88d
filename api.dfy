/** The mock backend of src/services/api.ts: the records it exchanges and the
    fixture data or echoed fields each operation resolves with. The simulated
    latency, the promises and the console logging are not modelled. */
module Api {
  import opened Strings
  import opened Options

  datatype LoginCredentials = LoginCredentials(email: string, password: string)

  datatype SignupData = SignupData(
    firstName: string, lastName: string, email: string,
    password: string, confirmPassword: string)

  datatype User = User(id: string, firstName: string, lastName: string, email: string, phone: Option<string>)

  datatype TxType = Sent | Received
  datatype TxStatus = Completed | Pending | Failed

  datatype Transaction = Transaction(
    id: int, recipient: string, amount: real, txType: TxType, date: string,
    status: TxStatus, reference: Option<string>, flag: Option<string>)

  datatype Recipient = Recipient(
    id: int, name: string, country: string, bank: string, flag: string,
    accountNumber: Option<string>)

  datatype AuthResponse = AuthResponse(user: User, token: string)

  datatype Balance = Balance(balance: real, currency: string)

  datatype SendMoneyRequest = SendMoneyRequest(recipientId: int, amount: real, currency: string, purpose: string)

  datatype SendMoneyResult = SendMoneyResult(success: bool, transactionId: string)

  const MockToken: string := "mock-token-123"

  /** `authAPI.login`: a fixed John Doe user carrying the caller's email. */
  function Login(credentials: LoginCredentials): (r: AuthResponse)
    ensures r.user == User("1", "John", "Doe", credentials.email, None)
    ensures r.token == MockToken
  {
    AuthResponse(User("1", "John", "Doe", credentials.email, None), MockToken)
  }

  /** `authAPI.signup`: user id "1" with the names and email copied from the form. */
  function Signup(data: SignupData): (r: AuthResponse)
    ensures r.user.id == "1" && r.user.phone == None
    ensures r.user.firstName == data.firstName && r.user.lastName == data.lastName
    ensures r.user.email == data.email
    ensures r.token == MockToken
  {
    AuthResponse(User("1", data.firstName, data.lastName, data.email, None), MockToken)
  }

  /** `transactionsAPI.getTransactions`: four transactions, ids 1..4, newest first. */
  function GetTransactions(): (r: seq<Transaction>)
    ensures |r| == 4
    ensures forall i :: 0 <= i < |r| ==> r[i].id == i + 1 && r[i].amount > 0.0
  {
    [ Transaction(1, "Sarah Johnson", 150.0, Sent, "2024-12-15", Completed, Some("TXN001234"), Some("🇬🇧")),
      Transaction(2, "Mike Chen", 75.0, Sent, "2024-12-14", Completed, Some("TXN001235"), Some("🇨🇦")),
      Transaction(3, "Emma Davis", 200.0, Received, "2024-12-10", Completed, Some("TXN001236"), Some("🇦🇺")),
      Transaction(4, "John Smith", 50.0, Sent, "2024-12-09", Pending, Some("TXN001237"), Some("🇺🇸")) ]
  }

  /** The fixture lists the transactions newest first. */
  lemma TransactionsNewestFirst()
    ensures forall i :: 0 < i < |GetTransactions()| ==>
      StringLe(GetTransactions()[i].date, GetTransactions()[i - 1].date)
  {
    var r := GetTransactions();
    assert FirstDifference(r[1].date, r[0].date, 9);
    assert FirstDifference(r[2].date, r[1].date, 9);
    assert FirstDifference(r[3].date, r[2].date, 8);
  }

  /** `recipientsAPI.getRecipients`: three recipients, ids 1..3, each with an account number. */
  function GetRecipients(): (r: seq<Recipient>)
    ensures |r| == 3
    ensures forall i :: 0 <= i < |r| ==> r[i].id == i + 1 && r[i].accountNumber.Some?
  {
    [ Recipient(1, "Sarah Johnson", "UK", "Barclays", "🇬🇧", Some("****4567")),
      Recipient(2, "Mike Chen", "Canada", "TD Bank", "🇨🇦", Some("****8901")),
      Recipient(3, "Emma Davis", "Australia", "NAB", "🇦🇺", Some("****2345")) ]
  }

  /** `walletAPI.getBalance` */
  function GetBalance(): (r: Balance)
    ensures r.balance == 5432.5 && r.currency == "USD"
  {
    Balance(5432.5, "USD")
  }

  /** `sendMoneyAPI.sendMoney`: always succeeds; the id is "TXN" followed by
      the clock reading `now` (`Date.now()`, a parameter here). */
  function SendMoney(request: SendMoneyRequest, now: nat): (r: SendMoneyResult)
    ensures r.success
    ensures StartsWith(r.transactionId, "TXN")
    ensures AllDigits(r.transactionId[3..]) && DigitsValue(r.transactionId[3..]) == now
    ensures |r.transactionId| >= 4
    ensures |r.transactionId| == 4 || r.transactionId[3] != '0'
  {
    var id := "TXN" + NatToString(now);
    assert id[3..] == NatToString(now);
    SendMoneyResult(true, id)
  }
}
