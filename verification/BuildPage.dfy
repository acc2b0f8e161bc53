/** The build wizard of the mini-app: a graphics card, then a processor,
    then a motherboard, then the assembled PC. Each handler is one atomic
    state change; an awaited request is an input. */
module BuildPage {
  import opened Wrappers

  /** The fields of a part card the wizard uses. */
  datatype PartCard = PartCard(cardId: int, gadgetName: string, rarity: string)

  /** The assembled PC the server returns. */
  datatype BuiltPc = BuiltPc(cardId: int, gadgetName: string, rarity: string)

  /** The part lists of `getAvailableParts`, by category. */
  datatype AvailableParts = AvailableParts(gpus: seq<PartCard>, cpus: seq<PartCard>, mbs: seq<PartCard>)

  datatype Step = Gpu | Cpu | Mb | Result

  const NoGpusMessage := "У тебя нет видеокарт! Сначала получи карточки через главную страницу 🎴"
  const NoCpusMessage := "У тебя нет процессоров! Сначала получи карточки через главную страницу 🎴"
  const NoMbsMessage := "У тебя нет материнских плат! Сначала получи карточки через главную страницу 🎴"
  const LoadFailedMessage := "Ошибка загрузки деталей"
  const BuildFailedMessage := "Ошибка сборки ПК"

  /** The message for the first empty category, in graphics card,
      processor, motherboard order; none when all three have parts. */
  function MissingPartsError(p: AvailableParts): (e: Option<string>)
    ensures e.None? <==> |p.gpus| > 0 && |p.cpus| > 0 && |p.mbs| > 0
    ensures |p.gpus| == 0 ==> e == Some(NoGpusMessage)
    ensures |p.gpus| > 0 && |p.cpus| == 0 ==> e == Some(NoCpusMessage)
    ensures |p.gpus| > 0 && |p.cpus| > 0 && |p.mbs| == 0 ==> e == Some(NoMbsMessage)
  {
    if |p.gpus| == 0 then Some(NoGpusMessage)
    else if |p.cpus| == 0 then Some(NoCpusMessage)
    else if |p.mbs| == 0 then Some(NoMbsMessage)
    else None
  }

  /** The wizard's React state. */
  class Wizard {
    var step: Step
    var parts: Option<AvailableParts>
    var selectedGpu: Option<PartCard>
    var selectedCpu: Option<PartCard>
    var selectedMb: Option<PartCard>
    var builtPc: Option<BuiltPc>
    var loading: bool
    var error: Option<string>

    /** The selections agree with the step: each later step has the
        earlier choices, no motherboard is kept before the last step, and
        a built PC is held exactly at the result. */
    ghost predicate Valid()
      reads this
    {
      && (step == Gpu ==> selectedCpu.None? && selectedMb.None?)
      && (step == Cpu ==> selectedGpu.Some? && selectedMb.None?)
      && (step == Mb ==> selectedGpu.Some? && selectedCpu.Some?)
      && (step == Result ==> selectedGpu.Some? && selectedCpu.Some? && selectedMb.Some?)
      && (builtPc.Some? <==> step == Result)
    }

    /** The first render, before the parts arrive. */
    constructor()
      ensures Valid() && step == Gpu && parts.None? && !loading && error.None?
      ensures selectedGpu.None? && selectedCpu.None? && selectedMb.None? && builtPc.None?
    {
      step := Gpu;
      parts := None;
      selectedGpu := None;
      selectedCpu := None;
      selectedMb := None;
      builtPc := None;
      loading := false;
      error := None;
    }

    /** `loadParts`: the lists are stored and the first empty category
        reported; a failed request keeps the old lists and reports its
        message. Loading is over either way. */
    method LoadParts(response: Outcome<AvailableParts>)
      modifies this
      ensures !loading
      ensures response.Resolved? ==>
        parts == Some(response.data) && error == MissingPartsError(response.data)
      ensures response.Rejected? ==>
        parts == old(parts) && error == Some(MessageOr(response.message, LoadFailedMessage))
      ensures step == old(step) && builtPc == old(builtPc)
      ensures selectedGpu == old(selectedGpu) && selectedCpu == old(selectedCpu) && selectedMb == old(selectedMb)
    {
      loading := true;
      if response.Resolved? {
        parts := Some(response.data);
        error := MissingPartsError(response.data);
      } else {
        error := Some(MessageOr(response.message, LoadFailedMessage));
      }
      loading := false;
    }

    /** `handleGPUSelect`, offered by the graphics card list. */
    method SelectGpu(gpu: PartCard)
      requires Valid() && step == Gpu
      modifies this
      ensures Valid()
      ensures selectedGpu == Some(gpu) && step == Cpu
      ensures selectedCpu == old(selectedCpu) && selectedMb == old(selectedMb) && builtPc == old(builtPc)
      ensures parts == old(parts) && loading == old(loading) && error == old(error)
    {
      selectedGpu := Some(gpu);
      step := Cpu;
    }

    /** `handleCPUSelect`, offered by the processor list. */
    method SelectCpu(cpu: PartCard)
      requires Valid() && step == Cpu
      modifies this
      ensures Valid()
      ensures selectedCpu == Some(cpu) && step == Mb
      ensures selectedGpu == old(selectedGpu) && selectedMb == old(selectedMb) && builtPc == old(builtPc)
      ensures parts == old(parts) && loading == old(loading) && error == old(error)
    {
      selectedCpu := Some(cpu);
      step := Mb;
    }

    /** `handleMBSelect`, offered by the motherboard list: without a
        graphics card and a processor nothing happens; otherwise the
        motherboard is recorded and the three card ids are sent, in that
        order. A built PC moves the wizard to the result; a failure stays
        at the motherboard step with the error. */
    method SelectMb(mb: PartCard, response: Outcome<BuiltPc>) returns (request: Option<(int, int, int)>)
      requires Valid() && step == Mb
      modifies this
      ensures Valid()
      ensures old(selectedGpu).None? || old(selectedCpu).None? ==>
        request.None? && step == old(step) && selectedMb == old(selectedMb) && builtPc == old(builtPc)
        && loading == old(loading) && error == old(error)
      ensures old(selectedGpu).Some? && old(selectedCpu).Some? ==>
        && request == Some((old(selectedGpu).value.cardId, old(selectedCpu).value.cardId, mb.cardId))
        && selectedMb == Some(mb) && !loading
        && (response.Resolved? ==> builtPc == Some(response.data) && step == Result && error.None?)
        && (response.Rejected? ==>
             builtPc == old(builtPc) && step == Mb && error == Some(MessageOr(response.message, BuildFailedMessage)))
      ensures selectedGpu == old(selectedGpu) && selectedCpu == old(selectedCpu) && parts == old(parts)
    {
      if selectedGpu.None? || selectedCpu.None? {
        return None;
      }
      selectedMb := Some(mb);
      loading := true;
      error := None;
      request := Some((selectedGpu.value.cardId, selectedCpu.value.cardId, mb.cardId));
      if response.Resolved? {
        builtPc := Some(response.data);
        step := Result;
      } else {
        error := Some(MessageOr(response.message, BuildFailedMessage));
      }
      loading := false;
    }

    /** `handleBack`: from the motherboard step to the processor step,
        dropping the motherboard; from the processor step to the graphics
        card step, dropping the processor. The graphics card is never
        dropped, and the other steps are left alone. */
    method Back()
      requires Valid()
      modifies this
      ensures Valid()
      ensures old(step) == Mb ==> step == Cpu && selectedMb.None? && selectedCpu == old(selectedCpu)
      ensures old(step) == Cpu ==> step == Gpu && selectedCpu.None? && selectedMb == old(selectedMb)
      ensures old(step) == Gpu || old(step) == Result ==>
        step == old(step) && selectedCpu == old(selectedCpu) && selectedMb == old(selectedMb)
      ensures selectedGpu == old(selectedGpu) && builtPc == old(builtPc)
      ensures parts == old(parts) && loading == old(loading) && error == old(error)
    {
      if step == Mb {
        step := Cpu;
        selectedMb := None;
      } else if step == Cpu {
        step := Gpu;
        selectedCpu := None;
      }
    }

    /** `handleReset`: back to the first step with every choice, the PC
        and the error dropped, then the parts are loaded again. */
    method Reset(response: Outcome<AvailableParts>)
      modifies this
      ensures Valid()
      ensures step == Gpu && selectedGpu.None? && selectedCpu.None? && selectedMb.None? && builtPc.None?
      ensures !loading
      ensures response.Resolved? ==>
        parts == Some(response.data) && error == MissingPartsError(response.data)
      ensures response.Rejected? ==>
        parts == old(parts) && error == Some(MessageOr(response.message, LoadFailedMessage))
    {
      step := Gpu;
      selectedGpu := None;
      selectedCpu := None;
      selectedMb := None;
      builtPc := None;
      error := None;
      LoadParts(response);
    }

    /** `currentParts`: the list for the step, the motherboards at the
        motherboard and result steps, nothing before the lists arrive. */
    function CurrentParts(): (r: seq<PartCard>)
      reads this
      ensures parts.None? ==> r == []
      ensures parts.Some? && step == Gpu ==> r == parts.value.gpus
      ensures parts.Some? && step == Cpu ==> r == parts.value.cpus
      ensures parts.Some? && (step == Mb || step == Result) ==> r == parts.value.mbs
    {
      if parts.None? then []
      else if step == Gpu then parts.value.gpus
      else if step == Cpu then parts.value.cpus
      else parts.value.mbs
    }

    /** The back button is shown at the processor and motherboard steps. */
    function BackVisible(): (b: bool)
      reads this
      ensures b <==> step == Cpu || step == Mb
    {
      step != Gpu && step != Result
    }
  }

  /** A whole run of the wizard from a fresh page: with every list
      non-empty no error is shown, and choosing a graphics card, a
      processor and a motherboard that the server assembles ends at the
      result holding that PC, after sending the three chosen ids. */
  method WizardRun(p: AvailableParts, gpu: PartCard, cpu: PartCard, mb: PartCard, pc: BuiltPc)
    returns (w: Wizard, request: Option<(int, int, int)>)
    requires |p.gpus| > 0 && |p.cpus| > 0 && |p.mbs| > 0
    ensures w.Valid() && w.step == Result && w.builtPc == Some(pc) && w.error.None?
    ensures request == Some((gpu.cardId, cpu.cardId, mb.cardId))
  {
    w := new Wizard();
    w.LoadParts(Resolved(p));
    assert w.error.None?;
    w.SelectGpu(gpu);
    w.SelectCpu(cpu);
    request := w.SelectMb(mb, Resolved(pc));
  }
}
