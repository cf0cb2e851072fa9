/** The data service and view model of the do/catch/try/throws demo: one outcome (active or
    not) reported in four error styles, a two-rule credential validator, and a view model
    whose `text` is updated by `try?`, `try` and `catch`. */
module DoCatchTryThrows {
  import opened Swift
  import opened Foundation

  /** The errors `validateCredentials` throws. */
  datatype CredentialErrors = BadUserName | BadPassword

  /** The title-and-error pair `getTitile` returns. */
  datatype TitleAndError = TitleAndError(title: Option<string>, error: Option<Error>)

  const NewText: string := "New Text!!!"
  const FinalText: string := "Final Text!!!"
  const StartingText: string := "Starting Text."

  /** The data service. Its `isActive` flag is a constant `true` in the app; here it is a
      field so that both outcomes can be stated. */
  datatype DataService = DataService(isActive: bool) {

    /** The tuple style: exactly one of title and error is present. */
    function GetTitile(): (r: TitleAndError)
      ensures r.title.Some? != r.error.Some?
      ensures r.title == Some(NewText) <==> isActive
      ensures r.error == Some(URLError(BadURL)) <==> !isActive
    {
      if isActive then TitleAndError(Some(NewText), None)
      else TitleAndError(None, Some(URLError(BadURL)))
    }

    /** The `Result` style. */
    function GetTitle2(): (r: Result<string, Error>)
      ensures r.Success? <==> isActive
      ensures r.Success? ==> r.value == NewText
      ensures r.Failure? ==> r.error == URLError(BadURL)
    {
      if isActive then Success(NewText) else Failure(URLError(BadURL))
    }

    /** The `throws` style. */
    function GetTitle3(): (r: Throws<string, Error>)
      ensures r.Returns? <==> isActive
      ensures r.Returns? ==> r.value == NewText
      ensures r.Threw? ==> r.error == URLError(BadURL)
    {
      if isActive then Returns(NewText) else Threw(URLError(BadURL))
    }

    /** The `throws` style again, with the final title. */
    function GetTitle4(): (r: Throws<string, Error>)
      ensures r.Returns? <==> isActive
      ensures r.Returns? ==> r.value == FinalText
      ensures r.Threw? ==> r.error == URLError(BadURL)
    {
      if isActive then Returns(FinalText) else Threw(URLError(BadURL))
    }
  }

  /** The password has a decimal digit somewhere in it. */
  ghost predicate HasDecimalDigit(password: string)
  {
    ContainsAny(password, DecimalDigits)
  }

  /** `validateCredentials(userName:password:)`: the user name is checked first. */
  function ValidateCredentials(userName: string, password: string): (r: Throws<(), CredentialErrors>)
    ensures r == Threw(BadUserName) <==> |userName| < 4
    ensures r == Threw(BadPassword) <==> |userName| >= 4 && !HasDecimalDigit(password)
    ensures r == Returns(()) <==> |userName| >= 4 && HasDecimalDigit(password)
  {
    if |userName| < 4 then Threw(BadUserName)
    else if RangeOfCharacter(password, DecimalDigits) == None then Threw(BadPassword)
    else Returns(())
  }

  /** A short user name is reported even when the password has no digit either. */
  lemma UserNameCheckedFirst(userName: string, password: string)
    requires |userName| < 4 && !HasDecimalDigit(password)
    ensures ValidateCredentials(userName, password) == Threw(BadUserName)
  {
  }

  /** The credentials the view model checks: a six-letter name and a password with no digit. */
  lemma MedhatFailsOnPassword()
    ensures ValidateCredentials("medhat", "medhat") == Threw(BadPassword)
  {
    var p := "medhat";
    forall k | 0 <= k < |p| ensures p[k] !in DecimalDigits {
      assert p[k] in {'m', 'e', 'd', 'h', 'a', 't'};
    }
    assert !HasDecimalDigit(p);
  }

  /** The three error styles say the same thing: the tuple carries a title exactly when the
      `Result` succeeds, with the same title, and an error exactly when it fails, with the
      same error; `getTitle3` throws exactly when `getTitle2` fails, with the same error,
      and returns what it succeeds with. */
  lemma TitleStylesAgree(service: DataService)
    ensures service.GetTitle2().Success? <==> service.GetTitle3().Returns?
    ensures service.GetTitle2().Success? ==> service.GetTitle2().value == service.GetTitle3().value
    ensures service.GetTitle2().Failure? ==> service.GetTitle2().error == service.GetTitle3().error
    ensures service.GetTitile().title.Some? <==> service.GetTitle2().Success?
    ensures service.GetTitile().title.Some? ==> service.GetTitile().title.value == service.GetTitle2().value
    ensures service.GetTitile().error.Some? <==> service.GetTitle2().Failure?
    ensures service.GetTitile().error.Some? ==> service.GetTitile().error.value == service.GetTitle2().error
  {
  }

  /** The console lines the second do/catch block of `fetchTitle` prints for the given
      credentials. */
  method ReportCredentials(userName: string, password: string) returns (printed: seq<string>)
    ensures |userName| < 4 ==> printed == ["user name too short"]
    ensures |userName| >= 4 && !HasDecimalDigit(password) ==> printed == ["Passord doesn't contain decimal number"]
    ensures |userName| >= 4 && HasDecimalDigit(password) ==> printed == []
  {
    printed := [];
    var outcome := ValidateCredentials(userName, password);
    match outcome {
      case Returns(_) =>
      case Threw(BadUserName) =>
        printed := printed + ["user name too short"];
      case Threw(BadPassword) =>
        printed := printed + ["Passord doesn't contain decimal number"];
    }
  }

  /** The view model: the published `text` and the service it asks. */
  class ViewModel {
    var text: string
    /** Every value assigned to `text`, in order; each one is published to the view. */
    ghost var published: seq<string>
    const manager: DataService

    constructor (isActive: bool)
      ensures text == StartingText && published == [] && manager == DataService(isActive)
    {
      text := StartingText;
      published := [];
      manager := DataService(isActive);
    }

    /** An assignment `self.text = ...` to the published `text`, as `fetchTitle` makes it:
        the new value is stored and published. */
    method SetText(newText: string)
      modifies this
      ensures text == newText && published == old(published) + [newText]
    {
      text := newText;
      published := published + [newText];
    }

    /** `fetchTitle()`. The `try?` call sets the new title only when it did not throw; the
        `try` call sets the final title or lets its error reach `catch`, which shows the
        error's localized description (supplied by the caller). Returns what the credential
        check prints. */
    method FetchTitle(localizedDescription: Error -> string) returns (printed: seq<string>)
      modifies this
      ensures manager.isActive ==> text == FinalText
      ensures manager.isActive ==> published == old(published) + [NewText, FinalText]
      ensures !manager.isActive ==> text == localizedDescription(URLError(BadURL))
      ensures !manager.isActive ==> published == old(published) + [localizedDescription(URLError(BadURL))]
      ensures printed == ["Passord doesn't contain decimal number"]
    {
      match manager.GetTitle3().OrNil() {
        case Some(newTitle) => SetText(newTitle);
        case None =>
      }
      match manager.GetTitle4() {
        case Returns(finalText) => SetText(finalText);
        case Threw(error) => SetText(localizedDescription(error));
      }
      MedhatFailsOnPassword();
      printed := ReportCredentials("medhat", "medhat");
    }
  }
}
