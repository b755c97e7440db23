/**
 * The image-prompt record and the generation options shared by the prompt parser and the
 * image generation manager (src/services/openaiImageGenerator.ts).
 */
module ImageTypes {

  /** A prompt parsed from the markdown prompt catalogue. */
  datatype ImagePrompt = ImagePrompt(
    id: string,
    category: string,
    title: string,
    prompt: string,
    filename: string,
    folder: string)

  /** `'1024x1024' | '1792x1024' | '1024x1792'` (width x height). */
  datatype ImageSize = Size1024x1024 | Size1792x1024 | Size1024x1792

  datatype Quality = Standard | Hd

  datatype Style = Vivid | Natural

  datatype GenerationOptions = GenerationOptions(size: ImageSize, quality: Quality, style: Style)
}
