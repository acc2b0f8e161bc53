/** The older build page: the part lists by category, the chosen card
    ids and the step, with a build request once all three ids are set.
    Card ids are JavaScript numbers, so 0 counts as unset. */
module Build {
  import opened Wrappers

  datatype Part = Part(cardId: int, gadgetName: string, rarity: string)

  datatype Step = Gpu | Cpu | Mb

  const GpuCategory := "Graphics Card"
  const CpuCategory := "Processor"
  const MbCategory := "Motherboard"
  const BuildFailedMessage := "Ошибка при сборке ПК"

  /** A JavaScript test of a `number | null` id. */
  predicate Truthy(id: Option<int>) {
    id.Some? && id.value != 0
  }

  /** `parts[category]?.length > 0`: the category is present and has parts. */
  predicate HasParts(parts: map<string, seq<Part>>, category: string) {
    category in parts && |parts[category]| > 0
  }

  /** `hasAllParts`. */
  predicate HasAllParts(parts: map<string, seq<Part>>) {
    HasParts(parts, GpuCategory) && HasParts(parts, CpuCategory) && HasParts(parts, MbCategory)
  }

  /** Part `k` is the first with the id. */
  predicate FirstWithId(ps: seq<Part>, id: int, k: int)
    requires 0 <= k < |ps|
  {
    ps[k].cardId == id && forall j | 0 <= j < k :: ps[j].cardId != id
  }

  /** `find(p => p.card_id === id)?.gadget_name`: the name of the first
      part with the id. */
  function NameOf(ps: seq<Part>, id: int): (r: Option<string>)
    ensures r.None? <==> forall k | 0 <= k < |ps| :: ps[k].cardId != id
    ensures r.Some? ==> exists k | 0 <= k < |ps| :: FirstWithId(ps, id, k) && ps[k].gadgetName == r.value
  {
    if |ps| == 0 then None
    else if ps[0].cardId == id then Some(ps[0].gadgetName)
    else
      var r := NameOf(ps[1..], id);
      if r.Some? then
        var k :| 0 <= k < |ps[1..]| && FirstWithId(ps[1..], id, k) && ps[1..][k].gadgetName == r.value;
        assert FirstWithId(ps, id, k + 1);
        r
      else r
  }

  /** What the page renders. */
  datatype Screen =
    | Loading
    | LoadFailed
    | MissingParts
    | GpuList(gpus: seq<Part>)
    | CpuList(gpuName: Option<string>, cpus: seq<Part>)
    | MbList(gpuName: Option<string>, cpuName: Option<string>, mbs: seq<Part>, buildButton: bool)
    | Blank

  /** What `handleBuild` does: nothing, or the request for the user and
      the three ids followed by the success alert and the move to the PC
      list, or by the failure alert. */
  datatype BuildEffect =
    | Ignored
    | Built(userId: int, gpu: int, cpu: int, mb: int)
    | BuildFailed(userId: int, gpu: int, cpu: int, mb: int, alert: string)

  class BuildView {
    var parts: Option<map<string, seq<Part>>>
    var step: Step
    var selectedGpu: Option<int>
    var selectedCpu: Option<int>
    var selectedMb: Option<int>
    var loading: bool

    /** Each step past the first has the ids chosen before it. */
    ghost predicate Valid()
      reads this
    {
      && (step == Cpu ==> selectedGpu.Some?)
      && (step == Mb ==> selectedGpu.Some? && selectedCpu.Some?)
    }

    /** The first render: loading, nothing chosen. */
    constructor()
      ensures Valid() && parts.None? && step == Gpu && loading
      ensures selectedGpu.None? && selectedCpu.None? && selectedMb.None?
    {
      parts := None;
      step := Gpu;
      selectedGpu := None;
      selectedCpu := None;
      selectedMb := None;
      loading := true;
    }

    /** The mount effect with `loadParts`: without a Telegram user nothing
        is requested and the page keeps loading; otherwise the answer's
        data is stored, a failure keeps none, and loading ends. */
    method Mount(user: Option<int>, response: Outcome<map<string, seq<Part>>>) returns (requested: Option<int>)
      modifies this
      ensures user.None? ==> requested.None? && loading == old(loading) && parts == old(parts)
      ensures user.Some? ==>
        && requested == user && !loading
        && parts == (if response.Resolved? then Some(response.data) else old(parts))
      ensures step == old(step) && selectedGpu == old(selectedGpu)
      ensures selectedCpu == old(selectedCpu) && selectedMb == old(selectedMb)
    {
      if user.None? {
        return None;
      }
      requested := user;
      if response.Resolved? {
        parts := Some(response.data);
      }
      loading := false;
    }

    /** The rendered screen. */
    function View(): (s: Screen)
      reads this
      ensures loading <==> s.Loading?
      ensures s.GpuList? || s.CpuList? || s.MbList? ==> parts.Some? && HasAllParts(parts.value)
      ensures s.GpuList? <==> !loading && parts.Some? && HasAllParts(parts.value) && step == Gpu
      ensures s.CpuList? <==> !loading && parts.Some? && HasAllParts(parts.value) && step == Cpu && Truthy(selectedGpu)
      ensures s.MbList? <==>
        && !loading && parts.Some? && HasAllParts(parts.value) && step == Mb
        && Truthy(selectedGpu) && Truthy(selectedCpu)
      ensures s.MbList? ==> (s.buildButton <==> Truthy(selectedMb))
    {
      if loading then Loading
      else if parts.None? then LoadFailed
      else if !HasAllParts(parts.value) then MissingParts
      else
        var ps := parts.value;
        match step
        case Gpu => GpuList(ps[GpuCategory])
        case Cpu =>
          if Truthy(selectedGpu) then CpuList(NameOf(ps[GpuCategory], selectedGpu.value), ps[CpuCategory])
          else Blank
        case Mb =>
          if Truthy(selectedGpu) && Truthy(selectedCpu) then
            MbList(NameOf(ps[GpuCategory], selectedGpu.value), NameOf(ps[CpuCategory], selectedCpu.value),
              ps[MbCategory], Truthy(selectedMb))
          else Blank
    }

    /** A graphics card button: its id is recorded and the step moves on. */
    method ClickGpu(gpu: Part)
      requires Valid() && View().GpuList?
      modifies this
      ensures Valid()
      ensures selectedGpu == Some(gpu.cardId) && step == Cpu
      ensures selectedCpu == old(selectedCpu) && selectedMb == old(selectedMb)
      ensures parts == old(parts) && loading == old(loading)
    {
      selectedGpu := Some(gpu.cardId);
      step := Cpu;
    }

    /** A processor button: its id is recorded and the step moves on. */
    method ClickCpu(cpu: Part)
      requires Valid() && View().CpuList?
      modifies this
      ensures Valid()
      ensures selectedCpu == Some(cpu.cardId) && step == Mb
      ensures selectedGpu == old(selectedGpu) && selectedMb == old(selectedMb)
      ensures parts == old(parts) && loading == old(loading)
    {
      selectedCpu := Some(cpu.cardId);
      step := Mb;
    }

    /** A motherboard button only records its id. */
    method ClickMb(mb: Part)
      requires Valid() && View().MbList?
      modifies this
      ensures Valid()
      ensures selectedMb == Some(mb.cardId) && step == Mb
      ensures selectedGpu == old(selectedGpu) && selectedCpu == old(selectedCpu)
      ensures parts == old(parts) && loading == old(loading)
    {
      selectedMb := Some(mb.cardId);
    }

    /** The back button of the processor step: no id is dropped. */
    method BackToGpu()
      requires Valid() && View().CpuList?
      modifies this
      ensures Valid() && step == Gpu
      ensures selectedGpu == old(selectedGpu) && selectedCpu == old(selectedCpu) && selectedMb == old(selectedMb)
      ensures parts == old(parts) && loading == old(loading)
    {
      step := Gpu;
    }

    /** The back button of the motherboard step: no id is dropped. */
    method BackToCpu()
      requires Valid() && View().MbList?
      modifies this
      ensures Valid() && step == Cpu
      ensures selectedGpu == old(selectedGpu) && selectedCpu == old(selectedCpu) && selectedMb == old(selectedMb)
      ensures parts == old(parts) && loading == old(loading)
    {
      step := Cpu;
    }

    /** `handleBuild`: nothing unless all three ids are set and a Telegram
        user is present; otherwise the request carries the user and the
        three ids, and a failure alerts the server's detail or the default
        message. The page's state is not changed. */
    method HandleBuild(user: Option<int>, response: Outcome<()>) returns (e: BuildEffect)
      ensures e != Ignored <==> Truthy(selectedGpu) && Truthy(selectedCpu) && Truthy(selectedMb) && user.Some?
      ensures e.Built? ==> response.Resolved?
      ensures e.BuildFailed? ==>
        && response.Rejected?
        && e.alert == (if response.message != [] then response.message else BuildFailedMessage)
      ensures e != Ignored ==>
        && e.userId == user.value
        && e.gpu == selectedGpu.value && e.cpu == selectedCpu.value && e.mb == selectedMb.value
    {
      if !Truthy(selectedGpu) || !Truthy(selectedCpu) || !Truthy(selectedMb) {
        return Ignored;
      }
      if user.None? {
        return Ignored;
      }
      if response.Resolved? {
        e := Built(user.value, selectedGpu.value, selectedCpu.value, selectedMb.value);
      } else {
        var alert := if response.message != [] then response.message else BuildFailedMessage;
        e := BuildFailed(user.value, selectedGpu.value, selectedCpu.value, selectedMb.value, alert);
      }
    }
  }

  /** The build button is only on screen when a build request would be
      sent for the present user. */
  method BuildButtonSendsRequest(v: BuildView, user: int, response: Outcome<()>) returns (e: BuildEffect)
    requires v.View().MbList? && v.View().buildButton
    ensures e.Built? || e.BuildFailed?
    ensures e.userId == user && e.gpu == v.selectedGpu.value && e.cpu == v.selectedCpu.value && e.mb == v.selectedMb.value
  {
    e := v.HandleBuild(Some(user), response);
  }

  /** Going back does not drop the motherboard: after going back to the
      processor step and choosing another processor, the build button is
      shown at once with the earlier motherboard. */
  method StaleMotherboardKept(v: BuildView, cpu: Part)
    requires v.Valid() && v.View().MbList? && Truthy(v.selectedMb)
    requires cpu.cardId != 0
    modifies v
    ensures v.View().MbList? && v.View().buildButton
    ensures v.selectedMb == old(v.selectedMb) && v.selectedCpu == Some(cpu.cardId)
  {
    v.BackToCpu();
    v.ClickCpu(cpu);
  }
}
