/** The queue-family scan at the start of `create_logical_device`. */
module QueueFamilies {
  import opened VkTypes

  /** `index` names the first family whose flags contain the graphics bit. */
  predicate IsFirstGraphicsFamily(families: seq<QueueFamilyProperties>, index: nat) {
    index < |families| && SupportsGraphics(families[index])
    && forall j :: 0 <= j < index ==> !SupportsGraphics(families[j])
  }

  predicate HasGraphicsFamily(families: seq<QueueFamilyProperties>) {
    exists j :: 0 <= j < |families| && SupportsGraphics(families[j])
  }

  /** The first queue family whose flags contain the graphics bit, found by
      a scan that stops at the first match; an error when no family has it. */
  method FindGraphicsFamily(families: seq<QueueFamilyProperties>) returns (r: Result<nat>)
    ensures r.Ok? ==> IsFirstGraphicsFamily(families, r.value)
    ensures r.Err? <==> !HasGraphicsFamily(families)
    ensures r.Err? ==> r.message == NO_GRAPHICS_QUEUE
  {
    var graphicsFamilyIndex: Option<nat> := None;
    var index := 0;
    while index < |families|
      invariant 0 <= index <= |families|
      invariant graphicsFamilyIndex == None
      invariant forall j :: 0 <= j < index ==> !SupportsGraphics(families[j])
    {
      if SupportsGraphics(families[index]) {
        graphicsFamilyIndex := Some(index);
        break;
      }
      index := index + 1;
    }
    r := if graphicsFamilyIndex.Some? then Ok(graphicsFamilyIndex.value) else Err(NO_GRAPHICS_QUEUE);
  }
}
