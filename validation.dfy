/** `utils/validation.ts`: the file type and size predicates and the rule set
    of the application's forms. */
module Validation {
  import opened Js
  import opened UseFormValidation

  /** A browser `File`, by what the predicates read: its MIME type and its size in bytes. */
  datatype File = File(name: string, mimeType: string, size: int)

  /** `MAX_FILE_SIZE` of `utils/constants.ts`, in megabytes. */
  const MaxFileSize: int := 50

  /** `File size must be less than ${MAX_FILE_SIZE}MB`, the error of an oversize
      file both in `useFileUpload` and on the upload step. */
  function TooLargeMessage(): string
  {
    "File size must be less than " + IntText(MaxFileSize) + "MB"
  }

  lemma TooLargeMessageText()
    ensures TooLargeMessage() == "File size must be less than 50MB"
  {
    assert IntText(50) == "50";
  }

  /** `validateFileType(file, allowedTypes)`: the MIME type is one of the allowed ones. */
  predicate ValidateFileType(file: File, allowedTypes: seq<string>)
  {
    file.mimeType in allowedTypes
  }

  /** `validateFileSize(file, maxSizeInMB)`: at most that many mebibytes, the limit itself included. */
  predicate ValidateFileSize(file: File, maxSizeInMB: real)
  {
    file.size as real <= maxSizeInMB * 1024.0 * 1024.0
  }

  /** For a whole number of megabytes the size limit is a byte count, and the boundary is inclusive. */
  lemma FileSizeBoundary(file: File, maxMB: int)
    ensures ValidateFileSize(file, maxMB as real) <==> file.size <= maxMB * 1048576
    ensures ValidateFileSize(File(file.name, file.mimeType, maxMB * 1048576), maxMB as real)
    ensures !ValidateFileSize(File(file.name, file.mimeType, maxMB * 1048576 + 1), maxMB as real)
  {
    assert (maxMB as real) * 1024.0 * 1024.0 == (maxMB * 1048576) as real;
  }

  /** `value > 0` on a number; a text is not coerced by the model and fails. */
  function PricePositive(v: Value): bool
  {
    v.Number? && v.n.Num? && v.n.value > 0.0
  }

  /** `value > 0 && Number.isInteger(value)`: `Number.isInteger` is false for anything but a number. */
  function WholePositive(v: Value): bool
  {
    v.Number? && v.n.Num? && v.n.value > 0.0 && v.n.value == v.n.value.Floor as real
  }

  const TitleRules := FieldRules(true, 3, 100, None, None)
  const DescriptionRules := FieldRules(true, 10, 1000, None, None)
  const PriceRules := FieldRules(true, 0, 0, None, Some(PricePositive))
  const SupplyRules := FieldRules(true, 0, 0, None, Some(WholePositive))

  function EmailRules(emailPattern: Value -> bool): FieldRules
  {
    FieldRules(true, 0, 0, Some(emailPattern), None)
  }

  /** `validationRules`, with the e-mail regular expression given as a predicate. */
  function ValidationRules(emailPattern: Value -> bool): (rules: map<string, FieldRules>)
    ensures rules.Keys == {"title", "description", "price", "supply", "email"}
  {
    map["title" := TitleRules, "description" := DescriptionRules, "price" := PriceRules,
        "supply" := SupplyRules, "email" := EmailRules(emailPattern)]
  }

  /** A title is valid exactly when it has 3 to 100 characters. */
  lemma TitleValid(s: string)
    ensures Check(TitleRules, Text(s)) == Says("") <==> 3 <= |s| <= 100
    ensures |s| == 0 ==> Check(TitleRules, Text(s)) == Says(Required)
    ensures 0 < |s| < 3 ==> Check(TitleRules, Text(s)) == Says("Minimum length is 3 characters")
    ensures |s| > 100 ==> Check(TitleRules, Text(s)) == Says("Maximum length is 100 characters")
  {
    TitleMessages();
  }

  /** The two length messages of the title rules, written out. */
  lemma TitleMessages()
    ensures MinMessage(3) == "Minimum length is 3 characters"
    ensures MaxMessage(100) == "Maximum length is 100 characters"
  {
    assert IntText(3) == "3";
    assert IntText(100) == "100" by { assert NatText(100) == NatText(10) + [DigitChar(0)]; }
  }

  /** A description is valid exactly when it has 10 to 1000 characters. */
  lemma DescriptionValid(s: string)
    ensures Check(DescriptionRules, Text(s)) == Says("") <==> 10 <= |s| <= 1000
  {
  }

  /** A price is valid exactly when it is a number above 0. */
  lemma PriceValid(v: Value)
    ensures Check(PriceRules, v) == Says("") <==> v.Number? && v.n.Num? && v.n.value > 0.0
  {
  }

  /** A supply is valid exactly when it is a whole number above 0. */
  lemma SupplyValid(x: real)
    ensures Check(SupplyRules, Number(Num(x))) == Says("") <==> x > 0.0 && x == x.Floor as real
    ensures Check(SupplyRules, Number(Num(1.5))) == Says(InvalidValue)
  {
    assert 1.5.Floor == 1;
  }

  /** An e-mail is valid exactly when it is non-empty and matches the pattern. */
  lemma EmailValid(emailPattern: Value -> bool, s: string)
    ensures Check(EmailRules(emailPattern), Text(s)) == Says("") <==> s != [] && emailPattern(Text(s))
  {
  }
}
