/**
 * The two configuration documents the application persists: the pairing
 * configuration linking the device to a server, and the wallet configuration
 * with its derivations. Only the fields the modelled code reads are kept.
 */
module Configs {
  import opened Wrappers

  /** The credential obtained when pairing; only its key is inspected. */
  datatype PairingResult = PairingResult(key: Option<string>)

  datatype PairConfig = PairConfig(pairingInstanceUri: Option<string>, pairingResult: PairingResult)

  /** The derivation purposes the wallet keys its derivations by. */
  datatype DerivationPurpose = NativeSegwit | LightningScripts | OtherPurpose(name: string)

  datatype Derivation = Derivation(identifier: string, path: string)

  datatype WalletConfig = WalletConfig(derivations: map<DerivationPurpose, Derivation>)
}
