/**
 * The request-global state the public class reads through WordPress and WCFM
 * globals, passed in explicitly: the current WCFM endpoint (`$WCFM_Query`), the
 * current vendor id (`get_vendor_id`) and whether that user is a WCFM seller
 * (`is_seller`).
 */
module WcfmRequest {
  datatype Request = Request(endpoint: string, vendorId: int, isSeller: bool)
}
