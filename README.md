# ImportantSwiftUIFeatures: the decision logic behind five demo screens

This project models, in Dafny, the few pieces of the ImportantSwiftUIFeatures gallery that
decide something, with the SwiftUI views and the network left aside:

- **Do/catch/try/throws** (`DoCatchTryThrows`): a data service that reports one outcome
  (active or not) as a tuple, a `Result` and two throwing functions; a credential validator
  that checks the user name's length before looking for a digit in the password; and a view
  model whose `fetchTitle` sets its published `text` through `try?`, `try` and `catch`, then
  runs the validator on fixed credentials and prints what went wrong.
- **The `@Trimmed` property wrapper** (`CustomPropertyWrapper`): stores the raw string and
  reads it back without leading or trailing whitespace and newlines.
- **Unit-testing services** (`UnitTesting`): a real service that never calls its completion,
  and a mock whose configured error wins over its configured data.
- **The mock data service and its view model** (`MockDataServiceExample`): the mock always
  delivers two models; the view model replaces its `data` on success and keeps it on failure.
- **The image response check** (`DownloadImageAsyncCombineEscaping`): `handleResponse`
  returns the decoded image only when there is data, it decodes, the response is HTTP and the
  status lies in 200..<300.

Two support modules stand for the language and library: `Swift` (`Optional`, `Result`, the
outcome of a `throws` call and `try?`) and `Foundation` (`Data`, errors, responses, character
sets, and `rangeOfCharacter(from:)` and `trimmingCharacters(in:)` with their properties).

Modelling conventions:

- A throwing function returns a `Throws<T, E>` value: `Returns(v)` or `Threw(e)`.
- A function that takes a completion handler is a method returning the sequence of results
  it passes to that handler. This is how "called exactly once" and "never called" are stated.
- The service's `isActive` flag is a constant `true` in the app. Here it is a field of
  `DataService`, chosen when the view model is built, so both branches can be stated.
- `UIImage(data:)` is a parameter `decodeImage: Data -> Option<Image>` of an arbitrary image type.
- `error.localizedDescription` is a parameter `localizedDescription: Error -> string` of `FetchTitle`.
- `print` output is returned as the sequence of printed lines.
- `String.count` is the length of the string as a sequence of characters.
- Each assignment to the `@Published` `text` is recorded in the ghost field `published`, so
  the intermediate "New Text!!!" write made by the `try?` step shows in `FetchTitle`'s contract.

## Model

| member | source | states |
|---|---|---|
| `DoCatchTryThrows.DataService.GetTitile` | ImportantSwiftUIFeatures/Concurrency/DoCatchTryThrows.swift:19-25 | exactly one of title and error is present; the title is "New Text!!!" iff active; the error is `URLError(.badURL)` iff not active |
| `DoCatchTryThrows.DataService.GetTitle2` | ImportantSwiftUIFeatures/Concurrency/DoCatchTryThrows.swift:27-33 | success iff active, with "New Text!!!"; otherwise failure with `URLError(.badURL)` |
| `DoCatchTryThrows.DataService.GetTitle3` | ImportantSwiftUIFeatures/Concurrency/DoCatchTryThrows.swift:37-43 | returns iff active, with "New Text!!!"; otherwise throws `URLError(.badURL)` |
| `DoCatchTryThrows.DataService.GetTitle4` | ImportantSwiftUIFeatures/Concurrency/DoCatchTryThrows.swift:45-51 | returns iff active, with "Final Text!!!"; otherwise throws `URLError(.badURL)` |
| `DoCatchTryThrows.TitleStylesAgree` | ImportantSwiftUIFeatures/Concurrency/DoCatchTryThrows.swift:19-43 | the tuple, `Result` and `throws` styles agree: the tuple has a title iff the `Result` succeeds iff `getTitle3` returns, all with the same title; the tuple has an error iff the `Result` fails iff `getTitle3` throws, all with the same error |
| `DoCatchTryThrows.ValidateCredentials` | ImportantSwiftUIFeatures/Concurrency/DoCatchTryThrows.swift:53-62 | throws `badUserName` iff the name has fewer than 4 characters; throws `badPassword` iff the name is long enough and the password has no decimal digit; returns iff the name is long enough and the password has a digit |
| `DoCatchTryThrows.UserNameCheckedFirst` | ImportantSwiftUIFeatures/Concurrency/DoCatchTryThrows.swift:55-61 | a short name with a digitless password gives `badUserName`, not `badPassword` |
| `DoCatchTryThrows.MedhatFailsOnPassword` | ImportantSwiftUIFeatures/Concurrency/DoCatchTryThrows.swift:104 | "medhat"/"medhat" throws `badPassword` |
| `DoCatchTryThrows.ReportCredentials` | ImportantSwiftUIFeatures/Concurrency/DoCatchTryThrows.swift:103-114 | prints "user name too short" for a short name, "Passord doesn't contain decimal number" for a digitless password, nothing for valid credentials |
| `DoCatchTryThrows.ViewModel.constructor` | ImportantSwiftUIFeatures/Concurrency/DoCatchTryThrows.swift:66-69 | `text` starts as "Starting Text.", nothing published yet, the manager has the given `isActive` |
| `DoCatchTryThrows.ViewModel.SetText` | ImportantSwiftUIFeatures/Concurrency/DoCatchTryThrows.swift:93-100 | an assignment to the published `text` stores the new value and appends it to the published values |
| `DoCatchTryThrows.ViewModel.FetchTitle` | ImportantSwiftUIFeatures/Concurrency/DoCatchTryThrows.swift:71-116 | when active, `text` is set to "New Text!!!" then "Final Text!!!"; when not, the `try?` sets nothing and `text` becomes the description of `URLError(.badURL)`; the credential check prints the bad-password line |
| `Swift.Throws.OrNil` | ImportantSwiftUIFeatures/Concurrency/DoCatchTryThrows.swift:93 | `try?` gives the returned value, or nil exactly when the call threw |
| `Foundation.RangeOfCharacter` | ImportantSwiftUIFeatures/Concurrency/DoCatchTryThrows.swift:59 | nil iff no character of the string is in the set; otherwise the position of the first one that is |
| `Foundation.LeadingCount` | ImportantSwiftUIFeatures/CustomPropertyWrapper.swift:16 | the length of the longest prefix made of characters of the set |
| `Foundation.TrailingCount` | ImportantSwiftUIFeatures/CustomPropertyWrapper.swift:16 | the length of the longest suffix made of characters of the set |
| `Foundation.TrimmingCharacters` | ImportantSwiftUIFeatures/CustomPropertyWrapper.swift:16 | the result is a contiguous piece `s[i..j]` of the input; everything before `i` and from `j` on is in the set; a non-empty result starts and ends outside the set |
| `Foundation.TrimOfUnique` | ImportantSwiftUIFeatures/CustomPropertyWrapper.swift:16 | any two strings that are trims of the same string in that sense are equal |
| `Foundation.TrimCharacterized` | ImportantSwiftUIFeatures/CustomPropertyWrapper.swift:16 | a string is a trim of `s` iff it equals `trimmingCharacters(in:)` of `s` |
| `Foundation.TrimKeepsTrimmed` | ImportantSwiftUIFeatures/CustomPropertyWrapper.swift:16 | a string with no set character at either end is returned unchanged |
| `Foundation.TrimIdempotent` | ImportantSwiftUIFeatures/CustomPropertyWrapper.swift:16 | trimming twice gives the same string as trimming once |
| `Foundation.TrimStripsPadding` | ImportantSwiftUIFeatures/CustomPropertyWrapper.swift:16 | padding a trimmed string with set characters on both sides and trimming gives back that string, interior included |
| `CustomPropertyWrapper.Trimmed.constructor` | ImportantSwiftUIFeatures/CustomPropertyWrapper.swift:20-22 | the initial string is stored unmodified |
| `CustomPropertyWrapper.Trimmed.WrappedValue` | ImportantSwiftUIFeatures/CustomPropertyWrapper.swift:15-16 | the read value is the trim of the stored one: a contiguous piece of it, no whitespace or newline at either end, only whitespace and newlines cut off |
| `CustomPropertyWrapper.Trimmed.SetWrappedValue` | ImportantSwiftUIFeatures/CustomPropertyWrapper.swift:17 | the new value is stored raw, with no trimming on write |
| `CustomPropertyWrapper.WriteBackRead` | ImportantSwiftUIFeatures/CustomPropertyWrapper.swift:15-17 | setting the read value back and reading again gives the same string |
| `CustomPropertyWrapper.NameOfCustomPropertyWrapper` | ImportantSwiftUIFeatures/CustomPropertyWrapper.swift:27 | `@Trimmed var name = "   John Doe   "` reads as "John Doe" |
| `UnitTesting.RealDataService.FetchData` | ImportantSwiftUIFeatures/UnitTesting.swift:17-19 | the completion is never invoked |
| `UnitTesting.MockDataServiceUnitTesing.constructor` | ImportantSwiftUIFeatures/UnitTesting.swift:25-27 | a new mock has neither data nor error set |
| `UnitTesting.MockDataServiceUnitTesing.FetchData` | ImportantSwiftUIFeatures/UnitTesting.swift:29-35 | the completion is invoked exactly once: with the error when one is set; otherwise with the data, or empty `Data()` when none is set |
| `UnitTesting.ErrorWinsOverData` | ImportantSwiftUIFeatures/UnitTesting.swift:30-34 | with both data and error set, the mock delivers the error |
| `MockDataServiceExample.MockDataService.FetchData` | ImportantSwiftUIFeatures/MockDataServiceExample.swift:20-27 | exactly one completion, a success with the models "M" then "F"; never a failure |
| `MockDataServiceExample.ViewModel.constructor` | ImportantSwiftUIFeatures/MockDataServiceExample.swift:31-37 | a new view model has empty `data` and keeps the injected service |
| `MockDataServiceExample.ViewModel.Receive` | ImportantSwiftUIFeatures/MockDataServiceExample.swift:40-47 | a success replaces `data` with its list; a failure leaves `data` unchanged |
| `MockDataServiceExample.ViewModel.FetchData` | ImportantSwiftUIFeatures/MockDataServiceExample.swift:39-48 | with the mock service, `data` is `[M, F]` afterwards |
| `MockDataServiceExample.TestViewModelFetchesData` | ImportantSwiftUIFeatures/MockDataServiceExample.swift:51-56 | the view model built on the mock starts empty and holds `[M, F]` after fetching |
| `DownloadImageAsyncCombineEscaping.HandleResponse` | ImportantSwiftUIFeatures/DownloadImageAsyncCombineEscaping.swift:15-23 | an image iff data is present, it decodes, the response is HTTP and the status is in `[200, 300)`; that image is the decoded one |
| `DownloadImageAsyncCombineEscaping.StatusRangeEnds` | ImportantSwiftUIFeatures/DownloadImageAsyncCombineEscaping.swift:19 | statuses 200 and 299 pass the decoded image through; 199 and 300 give nil |

## Left out

- All views, view modifiers, previews and layout. They render, and decide nothing.
- `downloadImageWithEscaping`, `downloadWithCombine`, `downloadWithAsyncAwait` and the view
  model's `fetchImage`. They are `URLSession` and Combine plumbing around `HandleResponse`.
- `MyClass.doSomething` in UnitTesting.swift. Its completion handler is empty.
- The protocols `DataServiceUnitTesting` and `DataServiceProtocol`. Each implementation is a
  class with a `FetchData` method of the same shape, without a common interface type.
- `MockDataServiceExample.ViewModel.FetchData`: the view model holds a `MockDataService`, the
  only implementation in that file, rather than any `DataServiceProtocol`.
- The delivery of completions. They are modelled as returned values, so nothing is said
  about `@escaping` or about completions that arrive later.
- The commented-out variants of `fetchTitle` (DoCatchTryThrows.swift:72-88 and 91-92).
- The `default: break` case of the credential `catch`. `validateCredentials` throws only
  `CredentialErrors`, so the model types its error and that case cannot occur.
- `ValidateCredentials`: the decimal-digit test knows only the ASCII digits 0-9, not every
  Unicode decimal digit that `CharacterSet.decimalDigits` contains.
- `CustomPropertyWrapper.Trimmed.WrappedValue`: the whitespace set is fixed at the list in
  `Foundation.WhitespacesAndNewlines`. It does not follow changes between Unicode versions.
- `String.count` counts grapheme clusters. The model counts characters (Unicode scalars), so
  a name made of combining sequences can be counted longer here than in Swift.
- `Foundation.RangeOfCharacter` returns only the start of the one-character range.
- The text of `localizedDescription` and the decoding done by `UIImage(data:)`. Both are
  opaque library behaviour, so they are parameters here.
- `print`. It is I/O; the printed lines are returned instead.
- SwiftUI's `ObservableObject` change notifications. The ghost `published` list records the
  assignments; redraws are not modelled.
