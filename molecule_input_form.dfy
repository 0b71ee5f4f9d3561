/**
 * The SMILES entry form: editing clears the error message, and submitting
 * either reports why the SMILES is refused or hands the SMILES and the chosen
 * target to the page.
 */
module MoleculeInputForm {
  import opened JsText
  import opened MoleculeUtils

  /** What the form hands to `onSubmit`. */
  datatype Submission = Submission(smiles: string, targetId: string)

  /** The message under the SMILES field: none, or why the last submit was refused. */
  datatype SmilesError = NoError | Required | Invalid

  /** The text the form shows for each message; the field is hidden when it is empty. */
  function ErrorText(e: SmilesError): (text: string)
    ensures text == "" <==> e == NoError
  {
    match e
    case NoError => ""
    case Required => "SMILES string is required"
    case Invalid => "Invalid SMILES string format"
  }

  class InputForm {
    var smiles: string
    var targetId: string
    var smilesError: SmilesError
    /** Every call of `onSubmit` so far, oldest first. */
    var submitted: seq<Submission>

    constructor()
      ensures smiles == "" && targetId == "" && smilesError == NoError && submitted == []
    {
      smiles := "";
      targetId := "";
      smilesError := NoError;
      submitted := [];
    }

    /** `handleSmilesChange`: take the new text and clear the error. */
    method HandleSmilesChange(value: string)
      modifies this
      ensures smiles == value && smilesError == NoError
      ensures targetId == old(targetId) && submitted == old(submitted)
    {
      smiles := value;
      smilesError := NoError;
    }

    method SetTargetId(id: string)
      modifies this
      ensures targetId == id
      ensures smiles == old(smiles) && smilesError == old(smilesError) && submitted == old(submitted)
    {
      targetId := id;
    }

    /** `handleSubmit`: a blank SMILES is reported as missing, a malformed one as
        invalid; only a valid one is submitted, once, untrimmed, with the target. */
    method HandleSubmit()
      modifies this
      ensures IsBlank(smiles) ==> smilesError == Required && submitted == old(submitted)
      ensures !IsBlank(smiles) && !SmilesValid(smiles) ==>
        smilesError == Invalid && submitted == old(submitted)
      ensures SmilesValid(smiles) ==>
        smilesError == old(smilesError) && submitted == old(submitted) + [Submission(smiles, targetId)]
      ensures smiles == old(smiles) && targetId == old(targetId)
    {
      var text := smiles;
      TrimEmptyIffBlank(text);
      if |Trim(text)| == 0 {
        BlankRejected(text);
        smilesError := Required;
        return;
      }
      var ok := ValidateSmiles(text);
      if !ok {
        smilesError := Invalid;
        return;
      }
      submitted := submitted + [Submission(smiles, targetId)];
    }
  }

  /** Whatever is typed, a submit reaches the page exactly when the SMILES is
      valid, and then carries that very text. */
  method SubmitAfterTyping(form: InputForm, text: string)
    modifies form
    ensures |form.submitted| == |old(form.submitted)| + (if SmilesValid(text) then 1 else 0)
    ensures SmilesValid(text) ==> form.submitted[|form.submitted| - 1] == Submission(text, form.targetId)
    ensures !SmilesValid(text) ==> form.smilesError != NoError
  {
    form.HandleSmilesChange(text);
    form.HandleSubmit();
  }
}
