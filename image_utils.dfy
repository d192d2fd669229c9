/** The check a product image passes before it is encoded and stored:
    the file must be an image and at most five mebibytes. */
module ImageUtils {
  import opened Wrappers
  import opened Text

  /** The largest accepted size in bytes: 5 MiB. */
  const MaxImageBytes: int := 5 * 1024 * 1024

  const NotAnImageMessage := "Please select an image file"
  const TooLargeMessage := "Image size should be less than 5MB"

  /** `{ valid, error? }` */
  datatype ImageCheck = ImageCheck(valid: bool, error: Option<string>)

  /** `validateImageFile`: the type is checked first, then the size. */
  function ValidateImageFile(fileType: string, size: int): (r: ImageCheck)
    ensures !StartsWith(fileType, "image/") ==> r == ImageCheck(false, Some(NotAnImageMessage))
    ensures StartsWith(fileType, "image/") && size > MaxImageBytes ==> r == ImageCheck(false, Some(TooLargeMessage))
  {
    if !StartsWith(fileType, "image/") then ImageCheck(false, Some(NotAnImageMessage))
    else if size > MaxImageBytes then ImageCheck(false, Some(TooLargeMessage))
    else ImageCheck(true, None)
  }

  /** A file is accepted exactly when its type starts with `image/` and it
      is at most 5242880 bytes; an accepted file carries no error and a
      rejected one always does. */
  lemma ValidIff(fileType: string, size: int)
    ensures ValidateImageFile(fileType, size).valid <==> StartsWith(fileType, "image/") && size <= 5242880
    ensures ValidateImageFile(fileType, size).valid <==> ValidateImageFile(fileType, size).error.None?
  {
  }

  /** The type error wins: a file that is neither an image nor small
      enough is reported as not an image. */
  lemma TypeCheckedFirst(fileType: string, size: int)
    requires !StartsWith(fileType, "image/") && size > MaxImageBytes
    ensures ValidateImageFile(fileType, size).error == Some(NotAnImageMessage)
  {
  }

  /** The limit is inclusive: an image of exactly 5 MiB is accepted, one
      byte more is not. */
  lemma LimitInclusive(fileType: string)
    requires StartsWith(fileType, "image/")
    ensures ValidateImageFile(fileType, 5242880).valid
    ensures !ValidateImageFile(fileType, 5242881).valid
  {
  }
}
