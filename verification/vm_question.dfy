/**
 * The panel that shows a VM's pending question and sends the chosen
 * answer. The VM loads and the answer reply are method parameters.
 */
module VmQuestionView {
  import opened Wrappers
  import opened Models

  /** The message shown when a VM has no question. */
  const NoQuestionMessage := "No question pending."

  /** The message for a loaded VM: its question's prompt, or that there is none. */
  function Message(vm: Vm): (r: string)
    ensures vm.question.Some? ==> r == vm.question.value.prompt
    ensures vm.question.None? ==> r == NoQuestionMessage
  {
    if vm.question.Some? then vm.question.value.prompt else NoQuestionMessage
  }

  /** The answer request: the question answered and the chosen key. */
  datatype VmAnswer = VmAnswer(vmId: string, questionId: string, choiceKey: string)

  class VmQuestionComponent {
    const id: string
    var vm: Vm
    var msg: string

    constructor (id: string)
      ensures this.id == id && vm == Vm("", "", None) && msg == "status unknown"
    {
      this.id := id;
      vm := Vm("", "", None);
      msg := "status unknown";
    }

    /** Clears the message and returns the id of the VM it requests. */
    method Refresh() returns (request: string)
      modifies this`msg
      ensures msg == "" && request == id
    {
      msg := "";
      request := id;
    }

    /** The reply to a load or an answer: the VM and its message. */
    method VmLoaded(loaded: Vm)
      modifies this`vm, this`msg
      ensures vm == loaded && msg == Message(loaded)
    {
      vm := loaded;
      msg := Message(loaded);
    }

    /** The choices to offer: the question's, or none when there is no question. */
    function Choices(): (r: seq<VmQuestionChoice>)
      reads this
      ensures vm.question.None? ==> r == []
      ensures vm.question.Some? ==> r == vm.question.value.choices
    {
      if vm.question.Some? && |vm.question.value.choices| > 0 then vm.question.value.choices else []
    }

    /** A choice's caption, marked with ` *` exactly when it is the default. */
    function Label(choice: VmQuestionChoice): (r: string)
      reads this
      requires vm.question.Some?
      ensures choice.caption <= r
      ensures |r| > |choice.caption| <==> choice.key == vm.question.value.defaultChoice
      ensures |r| > |choice.caption| ==> r[|choice.caption|..] == " *"
    {
      choice.caption + (if choice.key == vm.question.value.defaultChoice then " *" else "")
    }

    /** Answers the pending question with `choice`. */
    method Answer(choice: VmQuestionChoice) returns (request: VmAnswer)
      requires vm.question.Some?
      ensures request == VmAnswer(id, vm.question.value.id, choice.key)
    {
      request := VmAnswer(id, vm.question.value.id, choice.key);
    }
  }
}
