/** The Todo API's records and the FluentValidation rules of its two request
    types. A C# `string?` is an `Option<string>`; `Title` is declared
    non-nullable but JSON binding can leave it null, so it is one too. */
module TodoModels {
  import opened Wrappers
  import opened Text

  /** A `Guid`, by its 128-bit value. */
  type Guid = nat

  /** `TodoItem`. Times are integers on the abstract clock. */
  datatype TodoItem = TodoItem(
    id: Guid,
    userId: string,
    title: Option<string>,
    description: Option<string>,
    isCompleted: bool,
    createdAt: int,
    completedAt: Option<int>)

  datatype CreateTodoItemRequest = CreateTodoItemRequest(title: Option<string>, description: Option<string>)

  datatype UpdateTodoItemRequest = UpdateTodoItemRequest(
    title: Option<string>, description: Option<string>, isCompleted: bool)

  /** One failed rule: the property and the FluentValidation error code. */
  datatype ValidationFailure = ValidationFailure(propertyName: string, errorCode: string)

  const TitleMaximumLength: nat := 100
  const DescriptionMaximumLength: nat := 4000

  /** `NotEmpty` on a string: not null, not empty, not only white space. */
  predicate NotEmpty(s: Option<string>) {
    !IsNullOrWhiteSpace(s)
  }

  /** `MaximumLength(max)`: a null value passes; otherwise at most `max`
      UTF-16 code units. */
  predicate MaximumLength(s: Option<string>, max: nat) {
    s.None? || Utf16Length(s.value) <= max
  }

  /** `RuleFor(x => x.Title).NotEmpty().MaximumLength(100)`: both rules run,
      in that order, each contributing a failure when it does not hold. */
  function TitleRules(title: Option<string>): (failures: seq<ValidationFailure>)
    ensures forall k :: 0 <= k < |failures| ==> failures[k].propertyName == "Title"
    ensures failures == [] <==>
      && title.Some?
      && (exists i :: 0 <= i < |title.value| && !IsWhiteSpace(title.value[i]))
      && Utf16Length(title.value) <= 100
    ensures title.None? ==> failures == [ValidationFailure("Title", "NotEmptyValidator")]
  {
    (if NotEmpty(title) then [] else [ValidationFailure("Title", "NotEmptyValidator")])
    + (if MaximumLength(title, TitleMaximumLength) then [] else [ValidationFailure("Title", "MaximumLengthValidator")])
  }

  /** `RuleFor(x => x.Description).MaximumLength(4000)`. */
  function DescriptionRules(description: Option<string>): (failures: seq<ValidationFailure>)
    ensures forall k :: 0 <= k < |failures| ==> failures[k].propertyName == "Description"
    ensures failures == [] <==> description.None? || Utf16Length(description.value) <= 4000
  {
    if MaximumLength(description, DescriptionMaximumLength) then []
    else [ValidationFailure("Description", "MaximumLengthValidator")]
  }

  /** `CreateTodoItemRequest.Validator`: the title's failures, then the
      description's. */
  function ValidateCreate(request: CreateTodoItemRequest): (failures: seq<ValidationFailure>)
    ensures failures == [] <==>
      && request.title.Some?
      && (exists i :: 0 <= i < |request.title.value| && !IsWhiteSpace(request.title.value[i]))
      && Utf16Length(request.title.value) <= 100
      && (request.description.None? || Utf16Length(request.description.value) <= 4000)
    ensures forall k :: 0 <= k < |failures| ==> failures[k].propertyName in {"Title", "Description"}
  {
    TitleRules(request.title) + DescriptionRules(request.description)
  }

  /** `UpdateTodoItemRequest.Validator`: the same two rules; `IsCompleted` has none. */
  function ValidateUpdate(request: UpdateTodoItemRequest): (failures: seq<ValidationFailure>)
    ensures failures == [] <==>
      && request.title.Some?
      && (exists i :: 0 <= i < |request.title.value| && !IsWhiteSpace(request.title.value[i]))
      && Utf16Length(request.title.value) <= 100
      && (request.description.None? || Utf16Length(request.description.value) <= 4000)
  {
    TitleRules(request.title) + DescriptionRules(request.description)
  }

  /** The update rules are the create rules, whatever `IsCompleted` holds. */
  lemma UpdateRulesAreCreateRules(title: Option<string>, description: Option<string>, c1: bool, c2: bool)
    ensures ValidateUpdate(UpdateTodoItemRequest(title, description, c1)) ==
            ValidateCreate(CreateTodoItemRequest(title, description))
    ensures ValidateUpdate(UpdateTodoItemRequest(title, description, c1)) ==
            ValidateUpdate(UpdateTodoItemRequest(title, description, c2))
  {
  }

  /** A title of only white space fails `NotEmpty` even though it is not empty;
      the empty title fails it too. */
  lemma BlankTitlesFail(description: Option<string>)
    ensures ValidateCreate(CreateTodoItemRequest(Some(""), description)) != []
    ensures ValidateCreate(CreateTodoItemRequest(Some(" \t"), description)) != []
    ensures TitleRules(Some(" \t")) == [ValidationFailure("Title", "NotEmptyValidator")]
  {
    assert IsWhiteSpace(" \t"[0]) && IsWhiteSpace(" \t"[1]);
  }

  /** A Basic Multilingual Plane title is valid exactly when it has a
      non-blank character and at most 100 characters. */
  lemma BmpTitleLength(title: string)
    requires forall i :: 0 <= i < |title| ==> title[i] as int <= 0xFFFF
    ensures TitleRules(Some(title)) == [] <==>
      |title| <= 100 && exists i :: 0 <= i < |title| && !IsWhiteSpace(title[i])
  {
  }

  /** A character outside the Basic Multilingual Plane counts twice toward
      the limit: 51 of them already exceed 100. */
  lemma AstralCharactersCountTwice(title: string)
    requires |title| == 51 && forall i :: 0 <= i < |title| ==> title[i] as int > 0xFFFF
    ensures TitleRules(Some(title)) == [ValidationFailure("Title", "MaximumLengthValidator")]
  {
    AllAstral(title);
    assert !IsWhiteSpace(title[0]);
  }

  lemma {:induction false} AllAstral(s: string)
    requires forall i :: 0 <= i < |s| ==> s[i] as int > 0xFFFF
    ensures Utf16Length(s) == 2 * |s|
  {
    if s != [] {
      AllAstral(s[1..]);
    }
  }
}
