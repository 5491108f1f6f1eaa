/** Window sizes (src/api/display/size.rs). */
module Sizes {
  import opened CTypes

  datatype Size = Size(width: I32, height: I32)

  /** `Default`. */
  function Default(): (s: Size)
    ensures s.width == 0 && s.height == 0
  {
    Size(0, 0)
  }

  /** `Size::new`. */
  function New(width: I32, height: I32): (s: Size)
    ensures s.width == width && s.height == height
  {
    Size(width, height)
  }

  /** `width`: changes the width only. */
  function WithWidth(size: Size, value: I32): (s: Size)
    ensures s.width == value && s.height == size.height
  {
    size.(width := value)
  }

  /** `height`: changes the height only. */
  function WithHeight(size: Size, value: I32): (s: Size)
    ensures s.height == value && s.width == size.width
  {
    size.(height := value)
  }

  /** Setting both fields from the default gives `new` of the same values, in either order. */
  lemma SettersBuildNew(width: I32, height: I32)
    ensures WithHeight(WithWidth(Default(), width), height) == New(width, height)
    ensures WithWidth(WithHeight(Default(), height), width) == New(width, height)
  {
  }
}
