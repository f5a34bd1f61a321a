/** The signal a square sends back to the controller when a player lands on it. */
module LandActions {

  /** The token a building carries while the bank owns it. */
  const Bank: string := "BANK"

  datatype LandAction =
    | None            // no gameplay effect
    | PromptPurchase  // an unowned property: the controller offers it for sale
    | PayRent         // another player's property: the controller charges rent
    | Owned           // the lander's own property: nothing to do
    | CollectOSAP
    | PayTuition
    | PayCoopFee
    | Teleport
    | MoneyEvent
    | GoToTims
}
