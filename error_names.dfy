/** The three closed enumerations of the validation layer's error locations and
    their display-string tables (`CoreErrorLocation::String`). Each table maps an
    enumerator to its own name and the `Empty` sentinel to the empty string. */
module ErrorNames {

  /** The Vulkan entry point being validated. */
  datatype ErrFunc =
    | Empty
    | vkQueueSubmit
    | vkQueueSubmit2KHR
    | vkCmdSetEvent
    | vkCmdSetEvent2KHR
    | vkCmdResetEvent
    | vkCmdResetEvent2KHR
    | vkCmdPipelineBarrier
    | vkCmdPipelineBarrier2KHR
    | vkCmdWaitEvents
    | vkCmdWaitEvents2KHR
    | vkCmdWriteTimestamp2
    | vkCmdWriteTimestamp2KHR
    | vkCreateRenderPass
    | vkCreateRenderPass2
    | vkQueueBindSparse
    | vkSignalSemaphore

  /** The reference page (structure or command) whose valid-usage rules apply. */
  datatype RefPage =
    | Empty
    | VkMemoryBarrier
    | VkMemoryBarrier2KHR
    | VkBufferMemoryBarrier
    | VkImageMemoryBarrier
    | VkBufferMemoryBarrier2KHR
    | VkImageMemoryBarrier2KHR
    | VkSubmitInfo
    | VkSubmitInfo2KHR
    | VkCommandBufferSubmitInfoKHR
    | vkCmdSetEvent
    | vkCmdSetEvent2KHR
    | vkCmdResetEvent
    | vkCmdResetEvent2KHR
    | vkCmdPipelineBarrier
    | vkCmdPipelineBarrier2KHR
    | vkCmdWaitEvents
    | vkCmdWaitEvents2KHR
    | vkCmdWriteTimestamp2
    | vkCmdWriteTimestamp2KHR
    | VkSubpassDependency
    | VkSubpassDependency2
    | VkBindSparseInfo
    | VkSemaphoreSignalInfo

  /** A parameter or structure member being examined. */
  datatype Field =
    | Empty
    | oldLayout
    | newLayout
    | image
    | buffer
    | pMemoryBarriers
    | pBufferMemoryBarriers
    | pImageMemoryBarriers
    | offset
    | size
    | subresourceRange
    | srcAccessMask
    | dstAccessMask
    | srcStageMask
    | dstStageMask
    | pNext
    | pWaitDstStageMask
    | pWaitSemaphores
    | pSignalSemaphores
    | pWaitSemaphoreInfos
    | pWaitSemaphoreValues
    | pSignalSemaphoreInfos
    | pSignalSemaphoreValues
    | stage
    | stageMask
    | value
    | pCommandBuffers
    | pSubmits
    | pCommandBufferInfos
    | semaphore
    | commandBuffer
    | dependencyFlags
    | pDependencyInfo
    | pDependencyInfos
    | srcQueueFamilyIndex
    | dstQueueFamilyIndex
    | queryPool
    | pDependencies

  /** A character a display name may contain. */
  type NameChar = c: char | c != '.' && c != '[' && c != '('

  /** A display name: never contains the punctuation that `Message` places between
      levels (`.`), before an index (`[`) or after the entry point (`(`). */
  type Name = seq<NameChar>

  /** `String(ErrFunc)`: the display name of an entry point. */
  function ErrFuncString(func: ErrFunc): (r: Name)
    ensures r == "" <==> func == ErrFunc.Empty
  {
    match func
    case Empty => ""
    case vkQueueSubmit => "vkQueueSubmit"
    case vkQueueSubmit2KHR => "vkQueueSubmit2KHR"
    case vkCmdSetEvent => "vkCmdSetEvent"
    case vkCmdSetEvent2KHR => "vkCmdSetEvent2KHR"
    case vkCmdResetEvent => "vkCmdResetEvent"
    case vkCmdResetEvent2KHR => "vkCmdResetEvent2KHR"
    case vkCmdPipelineBarrier => "vkCmdPipelineBarrier"
    case vkCmdPipelineBarrier2KHR => "vkCmdPipelineBarrier2KHR"
    case vkCmdWaitEvents => "vkCmdWaitEvents"
    case vkCmdWaitEvents2KHR => "vkCmdWaitEvents2KHR"
    case vkCmdWriteTimestamp2 => "vkCmdWriteTimestamp2"
    case vkCmdWriteTimestamp2KHR => "vkCmdWriteTimestamp2KHR"
    case vkCreateRenderPass => "vkCreateRenderPass"
    case vkCreateRenderPass2 => "vkCreateRenderPass2"
    case vkQueueBindSparse => "vkQueueBindSparse"
    case vkSignalSemaphore => "vkSignalSemaphore"
  }

  /** Distinct entry points have distinct display names, so the name in a message
      identifies the function that was being validated. */
  lemma ErrFuncStringInjective(f: ErrFunc, g: ErrFunc)
    requires ErrFuncString(f) == ErrFuncString(g)
    ensures f == g
  {
  }

  /** `String(RefPage)`: the display name of a reference page. */
  function RefPageString(refPage: RefPage): (r: string)
    ensures r == "" <==> refPage == RefPage.Empty
  {
    match refPage
    case Empty => ""
    case VkMemoryBarrier => "VkMemoryBarrier"
    case VkMemoryBarrier2KHR => "VkMemoryBarrier2KHR"
    case VkBufferMemoryBarrier => "VkBufferMemoryBarrier"
    case VkImageMemoryBarrier => "VkImageMemoryBarrier"
    case VkBufferMemoryBarrier2KHR => "VkBufferMemoryBarrier2KHR"
    case VkImageMemoryBarrier2KHR => "VkImageMemoryBarrier2KHR"
    case VkSubmitInfo => "VkSubmitInfo"
    case VkSubmitInfo2KHR => "VkSubmitInfo2KHR"
    case VkCommandBufferSubmitInfoKHR => "VkCommandBufferSubmitInfoKHR"
    case vkCmdSetEvent => "vkCmdSetEvent"
    case vkCmdSetEvent2KHR => "vkCmdSetEvent2KHR"
    case vkCmdResetEvent => "vkCmdResetEvent"
    case vkCmdResetEvent2KHR => "vkCmdResetEvent2KHR"
    case vkCmdPipelineBarrier => "vkCmdPipelineBarrier"
    case vkCmdPipelineBarrier2KHR => "vkCmdPipelineBarrier2KHR"
    case vkCmdWaitEvents => "vkCmdWaitEvents"
    case vkCmdWaitEvents2KHR => "vkCmdWaitEvents2KHR"
    case vkCmdWriteTimestamp2 => "vkCmdWriteTimestamp2"
    case vkCmdWriteTimestamp2KHR => "vkCmdWriteTimestamp2KHR"
    case VkSubpassDependency => "VkSubpassDependency"
    case VkSubpassDependency2 => "VkSubpassDependency2"
    case VkBindSparseInfo => "VkBindSparseInfo"
    case VkSemaphoreSignalInfo => "VkSemaphoreSignalInfo"
  }

  /** `String(Field)`: the display name of a field. */
  function FieldString(field: Field): (r: Name)
    ensures r == "" <==> field == Field.Empty
  {
    match field
    case Empty => ""
    case oldLayout => "oldLayout"
    case newLayout => "newLayout"
    case image => "image"
    case buffer => "buffer"
    case pMemoryBarriers => "pMemoryBarriers"
    case pBufferMemoryBarriers => "pBufferMemoryBarriers"
    case pImageMemoryBarriers => "pImageMemoryBarriers"
    case offset => "offset"
    case size => "size"
    case subresourceRange => "subresourceRange"
    case srcAccessMask => "srcAccessMask"
    case dstAccessMask => "dstAccessMask"
    case srcStageMask => "srcStageMask"
    case dstStageMask => "dstStageMask"
    case pNext => "pNext"
    case pWaitDstStageMask => "pWaitDstStageMask"
    case pWaitSemaphores => "pWaitSemaphores"
    case pSignalSemaphores => "pSignalSemaphores"
    case pWaitSemaphoreInfos => "pWaitSemaphoreInfos"
    case pWaitSemaphoreValues => "pWaitSemaphoreValues"
    case pSignalSemaphoreInfos => "pSignalSemaphoreInfos"
    case pSignalSemaphoreValues => "pSignalSemaphoreValues"
    case stage => "stage"
    case stageMask => "stageMask"
    case value => "value"
    case pCommandBuffers => "pCommandBuffers"
    case pSubmits => "pSubmits"
    case pCommandBufferInfos => "pCommandBufferInfos"
    case semaphore => "semaphore"
    case commandBuffer => "commandBuffer"
    case dependencyFlags => "dependencyFlags"
    case pDependencyInfo => "pDependencyInfo"
    case pDependencyInfos => "pDependencyInfos"
    case srcQueueFamilyIndex => "srcQueueFamilyIndex"
    case dstQueueFamilyIndex => "dstQueueFamilyIndex"
    case queryPool => "queryPool"
    case pDependencies => "pDependencies"
  }

  /** Distinct fields have distinct display names. */
  lemma FieldStringInjective(f: Field, g: Field)
    requires FieldString(f) == FieldString(g)
    ensures f == g
  {
  }
}
