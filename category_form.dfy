/**
 * The add- and edit-category forms: their field and error state, the validation a save
 * runs, the callbacks a successful save makes (kept as a log of effects, in call order),
 * the error clearing done by field edits, and the edit form's delete-confirmation dialog.
 */
module CategoryForm {
  import opened Wrappers
  import opened Text
  import opened ColorPalette

  /** The errors a form shows under its fields. */
  datatype FieldError = NameRequired | NameNotUnique | ColorFormat

  /** The text shown for each error. */
  function Message(e: FieldError): string {
    match e
    case NameRequired => "Name is required"
    case NameNotUnique => "Name must be unique"
    case ColorFormat => "Color must be in #RRGGBB format"
  }

  /** The callbacks a form calls, in the order it calls them. */
  datatype Effect =
    | SaveCategory(name: string, colorHex: string, description: string)
    | CategorySaved
    | NavigateBack
    | DeleteCategory

  /** The name check of `onSaveClicked`: a blank name is missing; otherwise its trimmed,
      lower-cased form must not be one of the names already taken. */
  function NameCheck(name: string, takenNamesLower: set<string>): (error: Option<FieldError>)
    ensures error == Some(NameRequired) <==> IsBlank(name)
    ensures error == Some(NameNotUnique) <==> !IsBlank(name) && NameKey(name) in takenNamesLower
    ensures error == None <==> !IsBlank(name) && NameKey(name) !in takenNamesLower
  {
    if IsBlank(name) then Some(NameRequired)
    else if NameKey(name) in takenNamesLower then Some(NameNotUnique)
    else None
  }

  /** The colour check of `onSaveClicked`: a blank colour is allowed, any other must be
      `#RRGGBB` once trimmed. */
  function ColorCheck(colorHex: string): (error: Option<FieldError>)
    ensures error != Some(NameRequired) && error != Some(NameNotUnique)
  {
    if !IsBlank(colorHex) && !MatchesHexColor(Trim(colorHex)) then Some(ColorFormat) else None
  }

  /** The form accepts exactly the colours the preview can draw, and the blank colour. */
  lemma ColorCheckAgreesWithPreview(colorHex: string)
    ensures ColorCheck(colorHex) == None
      <==> IsBlank(colorHex) || PreviewFillFor(colorHex).ParsedColor?
  {
    ParseFailsIffNoMatch(colorHex);
  }

  /** A colour picked from the presets always passes the form's colour check. */
  lemma PresetPassesColorCheck(i: nat)
    requires i < |PresetCategoryColors|
    ensures ColorCheck(OnPresetClick(i)) == None
  {
    ClickSelectsOnlyThatPreset(i, i);
  }

  /** Whether a save with these inputs goes through. */
  predicate SaveAccepted(name: string, colorHex: string, takenNamesLower: set<string>) {
    NameCheck(name, takenNamesLower) == None && ColorCheck(colorHex) == None
  }

  /** What an accepted save hands on is clean: a non-empty trimmed name that is not taken,
      and a colour that is empty or `#RRGGBB`, none of them with whitespace around. */
  lemma AcceptedSaveIsClean(name: string, colorHex: string, description: string, takenNamesLower: set<string>)
    requires SaveAccepted(name, colorHex, takenNamesLower)
    ensures Trim(name) != [] && Trim(Trim(name)) == Trim(name)
    ensures NameKey(Trim(name)) !in takenNamesLower
    ensures Trim(colorHex) == [] || MatchesHexColor(Trim(colorHex))
    ensures Trim(Trim(description)) == Trim(description)
  {
    TrimIdempotent(name);
    TrimIdempotent(colorHex);
    TrimIdempotent(description);
  }

  /** The error a save leaves in a field: the check's error if it found one, otherwise the
      error the field already showed (a save never clears an error). */
  function ErrorAfterSave(check: Option<FieldError>, previous: Option<FieldError>): (error: Option<FieldError>)
    ensures previous.Some? ==> error.Some?
    ensures check.Some? ==> error == check
  {
    if check.Some? then check else previous
  }

  /** The callbacks an accepted add makes: save the trimmed values, raise the flag for
      the list's "added" message, leave the form. */
  function AddSaveEffects(name: string, colorHex: string, description: string): seq<Effect> {
    [SaveCategory(Trim(name), Trim(colorHex), Trim(description)), CategorySaved, NavigateBack]
  }

  /** The callbacks an accepted edit makes: save the trimmed values, leave the form. */
  function EditSaveEffects(name: string, colorHex: string, description: string): seq<Effect> {
    [SaveCategory(Trim(name), Trim(colorHex), Trim(description)), NavigateBack]
  }

  class AddCategoryForm {
    const existingNamesLower: set<string>
    var name: string
    var colorHex: string
    var description: string
    var nameError: Option<FieldError>
    var colorError: Option<FieldError>
    /** The callbacks made so far: `onSaveCategory`, `onCategorySaved`, `onNavigateBack`. */
    var effects: seq<Effect>

    /** Every field starts empty and no error is shown. */
    constructor (existingNamesLower: set<string>)
      ensures this.existingNamesLower == existingNamesLower
      ensures name == "" && colorHex == "" && description == ""
      ensures nameError == None && colorError == None
      ensures effects == []
    {
      this.existingNamesLower := existingNamesLower;
      name := "";
      colorHex := "";
      description := "";
      nameError := None;
      colorError := None;
      effects := [];
    }

    /** `onSaveClicked`: both checks run and may both set an error; only when neither
        finds one are the trimmed values saved, the flag for the list's message set, and
        the form left, in that order. The fields are not changed. */
    method OnSaveClicked()
      modifies this
      ensures name == old(name) && colorHex == old(colorHex) && description == old(description)
      ensures nameError == ErrorAfterSave(NameCheck(name, existingNamesLower), old(nameError))
      ensures colorError == ErrorAfterSave(ColorCheck(colorHex), old(colorError))
      ensures effects == old(effects)
        + if SaveAccepted(name, colorHex, existingNamesLower) then AddSaveEffects(name, colorHex, description) else []
    {
      var hasError := false;
      if IsBlank(name) {
        nameError := Some(NameRequired);
        hasError := true;
      } else if NameKey(name) in existingNamesLower {
        nameError := Some(NameNotUnique);
        hasError := true;
      }
      if !IsBlank(colorHex) {
        if !MatchesHexColor(Trim(colorHex)) {
          colorError := Some(ColorFormat);
          hasError := true;
        }
      }
      if !hasError {
        effects := effects + AddSaveEffects(name, colorHex, description);
      }
    }

    /** Editing the name clears the name error and nothing else. */
    method OnNameChange(newName: string)
      modifies this
      ensures name == newName && nameError == None
      ensures colorHex == old(colorHex) && description == old(description)
      ensures colorError == old(colorError) && effects == old(effects)
    {
      name := newName;
      if nameError != None {
        nameError := None;
      }
    }

    /** Editing the colour, by typing or by picking a preset, clears the colour error and
        nothing else. */
    method OnColorHexChange(newColor: string)
      modifies this
      ensures colorHex == newColor && colorError == None
      ensures name == old(name) && description == old(description)
      ensures nameError == old(nameError) && effects == old(effects)
    {
      colorHex := newColor;
      if colorError != None {
        colorError := None;
      }
    }

    /** Editing the description clears no error. */
    method OnDescriptionChange(newDescription: string)
      modifies this
      ensures description == newDescription
      ensures name == old(name) && colorHex == old(colorHex)
      ensures nameError == old(nameError) && colorError == old(colorError) && effects == old(effects)
    {
      description := newDescription;
    }
  }

  class EditCategoryForm {
    const otherNamesLower: set<string>
    var name: string
    var colorHex: string
    var description: string
    var nameError: Option<FieldError>
    var colorError: Option<FieldError>
    var showDeleteDialog: bool
    /** The callbacks made so far: `onSaveCategory`, `onDeleteCategory`, `onNavigateBack`. */
    var effects: seq<Effect>

    /** The fields start from the category's values, a missing description as "". */
    constructor (initialName: string, initialColorHex: string, initialDescription: Option<string>,
                 otherNamesLower: set<string>)
      ensures this.otherNamesLower == otherNamesLower
      ensures name == initialName && colorHex == initialColorHex
      ensures description == initialDescription.GetOr("")
      ensures nameError == None && colorError == None && !showDeleteDialog
      ensures effects == []
    {
      this.otherNamesLower := otherNamesLower;
      name := initialName;
      colorHex := initialColorHex;
      description := initialDescription.GetOr("");
      nameError := None;
      colorError := None;
      showDeleteDialog := false;
      effects := [];
    }

    /** `onSaveClicked`: the add form's checks with uniqueness against the other
        categories' names; an accepted save hands on the trimmed values and leaves the
        form, and never deletes. */
    method OnSaveClicked()
      modifies this
      ensures name == old(name) && colorHex == old(colorHex) && description == old(description)
      ensures showDeleteDialog == old(showDeleteDialog)
      ensures nameError == ErrorAfterSave(NameCheck(name, otherNamesLower), old(nameError))
      ensures colorError == ErrorAfterSave(ColorCheck(colorHex), old(colorError))
      ensures effects == old(effects)
        + if SaveAccepted(name, colorHex, otherNamesLower) then EditSaveEffects(name, colorHex, description) else []
    {
      var hasError := false;
      if IsBlank(name) {
        nameError := Some(NameRequired);
        hasError := true;
      } else if NameKey(name) in otherNamesLower {
        nameError := Some(NameNotUnique);
        hasError := true;
      }
      if !IsBlank(colorHex) {
        if !MatchesHexColor(Trim(colorHex)) {
          colorError := Some(ColorFormat);
          hasError := true;
        }
      }
      if !hasError {
        effects := effects + EditSaveEffects(name, colorHex, description);
      }
    }

    /** Editing the name clears the name error and nothing else. */
    method OnNameChange(newName: string)
      modifies this
      ensures name == newName && nameError == None
      ensures colorHex == old(colorHex) && description == old(description)
      ensures colorError == old(colorError) && showDeleteDialog == old(showDeleteDialog)
      ensures effects == old(effects)
    {
      name := newName;
      if nameError != None {
        nameError := None;
      }
    }

    /** Editing the colour clears the colour error and nothing else. */
    method OnColorHexChange(newColor: string)
      modifies this
      ensures colorHex == newColor && colorError == None
      ensures name == old(name) && description == old(description)
      ensures nameError == old(nameError) && showDeleteDialog == old(showDeleteDialog)
      ensures effects == old(effects)
    {
      colorHex := newColor;
      if colorError != None {
        colorError := None;
      }
    }

    /** Editing the description clears no error. */
    method OnDescriptionChange(newDescription: string)
      modifies this
      ensures description == newDescription
      ensures name == old(name) && colorHex == old(colorHex)
      ensures nameError == old(nameError) && colorError == old(colorError)
      ensures showDeleteDialog == old(showDeleteDialog) && effects == old(effects)
    {
      description := newDescription;
    }

    /** The delete button only opens the confirmation dialog. */
    method OnDeleteClick()
      modifies this
      ensures showDeleteDialog
      ensures name == old(name) && colorHex == old(colorHex) && description == old(description)
      ensures nameError == old(nameError) && colorError == old(colorError)
      ensures effects == old(effects)
    {
      showDeleteDialog := true;
    }

    /** Dismissing the dialog or pressing Cancel closes it without deleting. */
    method OnDismissDeleteDialog()
      modifies this
      ensures !showDeleteDialog
      ensures name == old(name) && colorHex == old(colorHex) && description == old(description)
      ensures nameError == old(nameError) && colorError == old(colorError)
      ensures effects == old(effects)
    {
      showDeleteDialog := false;
    }

    /** Confirming closes the dialog, deletes the category, then leaves the form. */
    method OnConfirmDelete()
      modifies this
      ensures !showDeleteDialog
      ensures name == old(name) && colorHex == old(colorHex) && description == old(description)
      ensures nameError == old(nameError) && colorError == old(colorError)
      ensures effects == old(effects) + [DeleteCategory, NavigateBack]
    {
      showDeleteDialog := false;
      effects := effects + [DeleteCategory];
      effects := effects + [NavigateBack];
    }
  }

  /** Only the delete dialog's confirm button deletes: a save, whatever its outcome, never
      logs a delete. */
  lemma SaveNeverDeletes(name: string, colorHex: string, description: string)
    ensures DeleteCategory !in AddSaveEffects(name, colorHex, description)
    ensures DeleteCategory !in EditSaveEffects(name, colorHex, description)
  {
  }
}
