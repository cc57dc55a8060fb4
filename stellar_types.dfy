/** The stellar-sdk values the wallet passes around: assets and memos. Only their
    identity matters here; the SDK's own validation is not part of this model. */
module StellarTypes {
  import opened Wrappers

  /** `Asset.native()` or an issued asset, compared by code and issuer as `Asset.equals` does. */
  datatype Asset = Native | Credit(code: string, issuer: string)

  /** The SDK's `MemoType` strings "none", "id", "text", "hash" and "return". */
  datatype MemoType = MemoNone | MemoId | MemoText | MemoHash | MemoReturn

  /** A built memo: its type and its value (`null` for `Memo.none()`). */
  datatype Memo = Memo(memoType: MemoType, value: Option<string>)
}
